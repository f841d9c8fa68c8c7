/**
 * InvoiceTransactionRepository: creates, reads and overwrites the status of transaction
 * records in the invoices table. Only the create operation has a body in the source; the
 * read and the status update are given the contracts their callers rely on.
 */
module InvoiceTransactionLayer {

  import opened Wrappers
  import opened Ddb
  import opened InvoiceTypes

  datatype LookupError = TransactionNotFound

  /** The table after an unconditional put of a transaction under its own (pk, sk). */
  function PutTransaction(items: map<TableKey, Item>, t: InvoiceTransaction): (r: map<TableKey, Item>)
    ensures TableKey(t.pk, t.sk) in r && r[TableKey(t.pk, t.sk)] == TransactionItem(t)
    ensures r.Keys == items.Keys + {TableKey(t.pk, t.sk)}
    ensures forall k :: k in items && k != TableKey(t.pk, t.sk) ==> r[k] == items[k]
  {
    items[TableKey(t.pk, t.sk) := TransactionItem(t)]
  }

  /**
   * The table after the status of the transaction for `token` is overwritten with `s`;
   * unchanged when there is no such transaction.
   */
  function WithStatus(items: map<TableKey, Item>, token: string, s: InvoiceTransactionStatus): (r: map<TableKey, Item>)
    ensures FindTransaction(items, token).Some? ==>
      FindTransaction(r, token) == Some(FindTransaction(items, token).value.(transactionsStatus := s))
    ensures FindTransaction(items, token).None? ==> r == items
    ensures r.Keys == items.Keys
    ensures forall k :: k in items && k != TransactionKey(token) ==> r[k] == items[k]
  {
    match FindTransaction(items, token)
    case Some(tx) => items[TransactionKey(token) := TransactionItem(tx.(transactionsStatus := s))]
    case None => items
  }

  /** Overwriting the status of one token leaves every other token's transaction as it was. */
  lemma WithStatusOthers(items: map<TableKey, Item>, token: string, s: InvoiceTransactionStatus, other: string)
    requires other != token
    ensures FindTransaction(WithStatus(items, token, s), other) == FindTransaction(items, other)
  {
    assert TransactionKey(other) != TransactionKey(token);
  }

  class InvoiceTransactionRepository {
    const table: InvoicesTable

    constructor (table: InvoicesTable)
      ensures this.table == table
    {
      this.table := table;
    }

    /** Puts the record unconditionally and hands it back unchanged. */
    method CreateInvoiceTransaction(invoiceTransaction: InvoiceTransaction) returns (r: InvoiceTransaction)
      modifies table
      ensures r == invoiceTransaction
      ensures table.items == PutTransaction(old(table.items), invoiceTransaction)
    {
      table.items := table.items[TableKey(invoiceTransaction.pk, invoiceTransaction.sk) := TransactionItem(invoiceTransaction)];
      r := invoiceTransaction;
    }

    /** Reads the transaction for a token, failing when there is none. */
    method GetInvoiceTransaction(key: string) returns (r: Result<InvoiceTransaction, LookupError>)
      ensures r.Ok? <==> TransactionKey(key) in table.items && table.items[TransactionKey(key)].TransactionItem?
      ensures r.Ok? ==> table.items[TransactionKey(key)] == TransactionItem(r.value)
      ensures r.Err? ==> r.error == TransactionNotFound
    {
      var k := TransactionKey(key);
      if k in table.items && table.items[k].TransactionItem? {
        r := Ok(table.items[k].tx);
      } else {
        r := Err(TransactionNotFound);
      }
    }

    /** Overwrites the status field of the transaction for a token; false when there is none. */
    method UpdateInvoiceTransaction(key: string, status: InvoiceTransactionStatus) returns (ok: bool)
      modifies table
      ensures ok <==> FindTransaction(old(table.items), key).Some?
      ensures table.items == WithStatus(old(table.items), key, status)
    {
      var found := FindTransaction(table.items, key);
      ok := found.Some?;
      if ok {
        table.items := table.items[TransactionKey(key) := TransactionItem(found.value.(transactionsStatus := status))];
      }
    }
  }
}
