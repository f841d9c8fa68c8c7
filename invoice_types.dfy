/**
 * Records of the invoices table: the import transaction with its status, the uploaded
 * invoice file and the invoice derived from it. Transactions and invoices share one table,
 * told apart by their partition key.
 */
module InvoiceTypes {

  import opened Wrappers
  import opened Ddb

  /** The transaction status, one canonical value per spelling used across the handlers. */
  datatype InvoiceTransactionStatus =
    | GENERATED
    | RECEIVED
    | PROCESSED
    | TIMEOUT
    | CANCELLED
    | NON_VALID_INVOICE_NUMBER
    | NOT_FOUND

  /** The string each status is stored and sent as; it reads back as the same status. */
  function Wire(s: InvoiceTransactionStatus): (r: string)
    ensures FromWire(r) == Some(s)
  {
    match s
    case GENERATED => "URL_GENERATED"
    case RECEIVED => "INVOICE_RECEIVED"
    case PROCESSED => "INVOICE_PROCESSED"
    case TIMEOUT => "TIMOUT"
    case CANCELLED => "INVOICE_CANCELLED"
    case NON_VALID_INVOICE_NUMBER => "NON_VALID_INVOICE_NUMBER"
    case NOT_FOUND => "NOT_FOUND"
  }

  /**
   * Reads a stored status string back as a status. The source has no such decoder: its
   * handlers compare the stored string with the enum's constants. It is here as the inverse
   * that gives `Wire` its round trip.
   */
  function FromWire(w: string): Option<InvoiceTransactionStatus>
  {
    if w == "URL_GENERATED" then Some(GENERATED)
    else if w == "INVOICE_RECEIVED" then Some(RECEIVED)
    else if w == "INVOICE_PROCESSED" then Some(PROCESSED)
    else if w == "TIMOUT" then Some(TIMEOUT)
    else if w == "INVOICE_CANCELLED" then Some(CANCELLED)
    else if w == "NON_VALID_INVOICE_NUMBER" then Some(NON_VALID_INVOICE_NUMBER)
    else if w == "NOT_FOUND" then Some(NOT_FOUND)
    else None
  }

  /** Only the wire strings of statuses read back as statuses, and each as its own status. */
  lemma FromWireOnlyWire(w: string)
    ensures FromWire(w).Some? ==> Wire(FromWire(w).value) == w
  {
  }

  /** No two statuses share a wire string. */
  lemma WireInjective(s: InvoiceTransactionStatus, t: InvoiceTransactionStatus)
    requires Wire(s) == Wire(t)
    ensures s == t
  {
  }

  /** The status edges the import and cancel handlers take. */
  predicate Edge(from: InvoiceTransactionStatus, to: InvoiceTransactionStatus)
  {
    || (from == GENERATED && to == RECEIVED)
    || (from == GENERATED && to == CANCELLED)
    || (from == RECEIVED && to == PROCESSED)
    || (from == RECEIVED && to == NON_VALID_INVOICE_NUMBER)
  }

  /** Reflexive-transitive closure of Edge, written out. */
  predicate Reach(from: InvoiceTransactionStatus, to: InvoiceTransactionStatus)
  {
    || from == to
    || Edge(from, to)
    || (from == GENERATED && (to == PROCESSED || to == NON_VALID_INVOICE_NUMBER))
  }

  /** Reach is closed under composition. */
  lemma ReachTransitive(a: InvoiceTransactionStatus, b: InvoiceTransactionStatus, c: InvoiceTransactionStatus)
    requires Reach(a, b) && Reach(b, c)
    ensures Reach(a, c)
  {
  }

  /** A transaction record (invoiceTransaction.ts). */
  datatype InvoiceTransaction = InvoiceTransaction(
    pk: string,
    sk: string,
    ttl: int,
    requestId: string,
    timestamp: int,
    expiresIn: int,
    connectionId: string,
    endpoint: string,
    transactionsStatus: InvoiceTransactionStatus)

  /** The uploaded document, as parsed from the object body. */
  datatype InvoiceFile = InvoiceFile(
    customerName: string,
    invoiceNumber: string,
    totalValue: int,
    productId: string,
    quantity: int)

  /** An imported invoice. */
  datatype Invoice = Invoice(
    pk: string,
    sk: string,
    totalValue: int,
    productId: string,
    quantity: int,
    transactionId: string,
    ttl: int,
    createdAt: int)

  /** An item of the invoices table. */
  datatype Item = TransactionItem(tx: InvoiceTransaction) | InvoiceItem(invoice: Invoice)

  /** The partition every transaction record lives under. */
  const TransactionPk: string := "#transaction"

  /** The partition prefix of imported invoices. */
  const InvoicePkPrefix: string := "#invoice_"

  function TransactionKey(token: string): TableKey
  {
    TableKey(TransactionPk, token)
  }

  function InvoicePk(customerName: string): (pk: string)
    ensures InvoicePkPrefix <= pk
  {
    InvoicePkPrefix + customerName
  }

  /** No invoice partition is the transaction partition, so an invoice never lands on a transaction key. */
  lemma InvoicePkIsNotTransactionPk(customerName: string)
    ensures !(TransactionPk <= InvoicePk(customerName))
    ensures forall token :: TableKey(InvoicePk(customerName), token) != TransactionKey(token)
  {
    var pk := InvoicePk(customerName);
    assert pk[1] == 'i';
    assert TransactionPk[1] == 't';
  }

  /** The invoices table. */
  class InvoicesTable {
    var items: map<TableKey, Item>

    constructor ()
      ensures items == map[]
    {
      items := map[];
    }
  }

  /** The transaction stored for a token, if the key holds one. */
  function FindTransaction(items: map<TableKey, Item>, token: string): (r: Option<InvoiceTransaction>)
    ensures r.Some? <==> TransactionKey(token) in items && items[TransactionKey(token)].TransactionItem?
    ensures r.Some? ==> items[TransactionKey(token)] == TransactionItem(r.value)
  {
    var k := TransactionKey(token);
    if k in items && items[k].TransactionItem? then Some(items[k].tx) else None
  }

  /** The status stored for a token, if any. */
  function StatusOf(items: map<TableKey, Item>, token: string): Option<InvoiceTransactionStatus>
  {
    match FindTransaction(items, token)
    case Some(tx) => Some(tx.transactionsStatus)
    case None => None
  }
}
