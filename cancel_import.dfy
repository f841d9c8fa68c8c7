/**
 * The canceller: a client asks to cancel a transaction. A GENERATED transaction becomes
 * CANCELLED; any other is left alone and its status reported; an unknown token is
 * reported NOT_FOUND. The answer always goes to the requesting connection.
 */
module CancelImport {

  import opened Wrappers
  import opened Ddb
  import opened InvoiceTypes
  import opened InvoiceTransactionLayer
  import opened InvoiceWSConnection
  import opened InvoiceImport

  /** The response of the websocket route. */
  datatype ApiResponse = ApiResponse(statusCode: int, body: string)

  /** What cancelling `transactionId` on behalf of `connectionId` does to the world. */
  function Cancel(w: World, live: set<string>, transactionId: string, connectionId: string): (r: World)
    ensures r.objects == w.objects && r.items.Keys == w.items.Keys
    ensures |r.posted| == |w.posted| + (if connectionId in live then 1 else 0)
    ensures r.posted[..|w.posted|] == w.posted
    ensures forall i :: |w.posted| <= i < |r.posted| ==>
      r.posted[i].connectionId == connectionId && r.posted[i].data.transactionId == transactionId
  {
    match FindTransaction(w.items, transactionId)
    case None =>
      w.(posted := Deliver(w.posted, live, connectionId, StatusMessage(transactionId, NOT_FOUND)))
    case Some(tx) =>
      if tx.transactionsStatus == GENERATED then
        World(WithStatus(w.items, transactionId, CANCELLED), w.objects,
              Deliver(w.posted, live, connectionId, StatusMessage(transactionId, CANCELLED)))
      else
        w.(posted := Deliver(w.posted, live, connectionId, StatusMessage(transactionId, tx.transactionsStatus)))
  }

  /**
   * The requester always hears exactly one answer about the token: CANCELLED when it was
   * GENERATED, NOT_FOUND when absent, the unchanged status otherwise. Objects never change.
   */
  lemma CancelAnswers(w: World, live: set<string>, transactionId: string, connectionId: string)
    ensures Cancel(w, live, transactionId, connectionId).objects == w.objects
    ensures var answer :=
        match StatusOf(w.items, transactionId)
        case None => NOT_FOUND
        case Some(s) => if s == GENERATED then CANCELLED else s;
      Cancel(w, live, transactionId, connectionId).posted
        == Deliver(w.posted, live, connectionId, StatusMessage(transactionId, answer))
    ensures StatusOf(w.items, transactionId) != Some(GENERATED) ==>
      Cancel(w, live, transactionId, connectionId).items == w.items
    ensures StatusOf(w.items, transactionId) == Some(GENERATED) ==>
      StatusOf(Cancel(w, live, transactionId, connectionId).items, transactionId) == Some(CANCELLED)
  {
  }

  /** Cancelling advances every transaction along the lifecycle and touches no other token. */
  lemma CancelAdvances(w: World, live: set<string>, transactionId: string, connectionId: string)
    ensures Advances(w.items, Cancel(w, live, transactionId, connectionId).items)
    ensures forall token :: token != transactionId ==>
      FindTransaction(Cancel(w, live, transactionId, connectionId).items, token) == FindTransaction(w.items, token)
  {
    var after := Cancel(w, live, transactionId, connectionId).items;
    forall token | token != transactionId
      ensures FindTransaction(after, token) == FindTransaction(w.items, token)
    {
      WithStatusOthers(w.items, transactionId, CANCELLED, token);
    }
  }

  /** A second cancel changes nothing in the table. */
  lemma CancelIdempotent(w: World, live: set<string>, transactionId: string, c1: string, c2: string)
    ensures Cancel(Cancel(w, live, transactionId, c1), live, transactionId, c2).items
         == Cancel(w, live, transactionId, c1).items
  {
  }

  /** An upload that arrives after a successful cancel is never imported: no invoice, the object stays. */
  lemma CancelThenImport(w: World, live: set<string>, token: string, requester: string, now: int)
    requires StatusOf(w.items, token) == Some(GENERATED)
    ensures var cancelled := Cancel(w, live, token, requester);
      && Import(cancelled, live, token, now).items == cancelled.items
      && Import(cancelled, live, token, now).objects == w.objects
      && StatusOf(Import(cancelled, live, token, now).items, token) == Some(CANCELLED)
  {
    var cancelled := Cancel(w, live, token, requester);
    assert StatusOf(cancelled.items, token) == Some(CANCELLED);
    ImportOwn(cancelled, live, token, now);
  }

  /** A cancel arriving once the upload has been taken in changes nothing in the table. */
  lemma ImportThenCancel(w: World, live: set<string>, token: string, requester: string, now: int)
    requires StatusOf(w.items, token) == Some(GENERATED)
    ensures var imported := Import(w, live, token, now);
      Cancel(imported, live, token, requester).items == imported.items
  {
    ImportOwn(w, live, token, now);
  }

  /**
   * Handles a cancel request from `connectionId` for `transactionId` (already read from the
   * request body); every failure of the lookup is answered NOT_FOUND. Always answers 200 OK.
   */
  method Handler(transactions: InvoiceTransactionRepository, ws: InvoiceWSService,
                 transactionId: string, connectionId: string) returns (response: ApiResponse)
    modifies transactions.table, ws.api
    ensures response == ApiResponse(200, "OK")
    ensures ws.api.connections == old(ws.api.connections)
    // The canceller never reads or writes the bucket, so the world it sees has no objects.
    ensures var after := Cancel(World(old(transactions.table.items), map[], old(ws.api.posted)),
                                ws.api.connections, transactionId, connectionId);
      transactions.table.items == after.items && ws.api.posted == after.posted
  {
    var found := transactions.GetInvoiceTransaction(transactionId);
    var sent, updated;
    match found {
      case Ok(tx) =>
        if tx.transactionsStatus == GENERATED {
          sent := ws.SendInvoiceStatus(transactionId, connectionId, CANCELLED);
          updated := transactions.UpdateInvoiceTransaction(transactionId, CANCELLED);
        } else {
          sent := ws.SendInvoiceStatus(transactionId, connectionId, tx.transactionsStatus);
        }
      case Err(_) =>
        sent := ws.SendInvoiceStatus(transactionId, connectionId, NOT_FOUND);
    }
    response := ApiResponse(200, "OK");
  }
}
