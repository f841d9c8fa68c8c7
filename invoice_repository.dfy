/** InvoiceRepository: an unconditional put of an invoice into the invoices table. */
module InvoiceRepositoryLayer {

  import opened Ddb
  import opened InvoiceTypes

  /** The table after an unconditional put of an invoice under its own (pk, sk). */
  function PutInvoice(items: map<TableKey, Item>, invoice: Invoice): (r: map<TableKey, Item>)
    ensures TableKey(invoice.pk, invoice.sk) in r && r[TableKey(invoice.pk, invoice.sk)] == InvoiceItem(invoice)
    ensures r.Keys == items.Keys + {TableKey(invoice.pk, invoice.sk)}
    ensures forall k :: k in items && k != TableKey(invoice.pk, invoice.sk) ==> r[k] == items[k]
  {
    items[TableKey(invoice.pk, invoice.sk) := InvoiceItem(invoice)]
  }

  /** Putting an invoice whose partition is an invoice partition leaves every transaction alone. */
  lemma PutInvoiceKeepsTransactions(items: map<TableKey, Item>, invoice: Invoice, customerName: string, token: string)
    requires invoice.pk == InvoicePk(customerName)
    ensures FindTransaction(PutInvoice(items, invoice), token) == FindTransaction(items, token)
  {
    InvoicePkIsNotTransactionPk(customerName);
    assert TableKey(invoice.pk, invoice.sk) != TransactionKey(token) by {
      assert !(TransactionPk <= invoice.pk);
    }
  }

  class InvoiceRepository {
    const table: InvoicesTable

    constructor (table: InvoicesTable)
      ensures this.table == table
    {
      this.table := table;
    }

    /** Puts the invoice, overwriting any item with the same key, and hands it back unchanged. */
    method Create(invoice: Invoice) returns (r: Invoice)
      modifies table
      ensures r == invoice
      ensures table.items == PutInvoice(old(table.items), invoice)
    {
      table.items := table.items[TableKey(invoice.pk, invoice.sk) := InvoiceItem(invoice)];
      r := invoice;
    }
  }
}
