/**
 * InvoiceWSService: posts status messages to connected websocket clients. The websocket
 * management API is modelled by the set of live connections and the sequence of messages
 * posted so far.
 */
module InvoiceWSConnection {

  import opened InvoiceTypes

  /** The message a client receives about its transaction. */
  datatype StatusMessage = StatusMessage(transactionId: string, status: InvoiceTransactionStatus)

  /** One message posted to one connection. */
  datatype Post = Post(connectionId: string, data: StatusMessage)

  /** The posts after `sendData(connectionId, data)`: appended when the connection is live. */
  function Deliver(posted: seq<Post>, live: set<string>, connectionId: string, data: StatusMessage): (r: seq<Post>)
    ensures connectionId in live ==> r == posted + [Post(connectionId, data)]
    ensures connectionId !in live ==> r == posted
  {
    if connectionId in live then posted + [Post(connectionId, data)] else posted
  }

  /** The websocket management API: which connections exist and what has been posted. */
  class WebSocketApi {
    var connections: set<string>
    var posted: seq<Post>

    constructor (connections: set<string>)
      ensures this.connections == connections && posted == []
    {
      this.connections := connections;
      posted := [];
    }
  }

  class InvoiceWSService {
    const api: WebSocketApi

    constructor (api: WebSocketApi)
      ensures this.api == api
    {
      this.api := api;
    }

    /**
     * Looks the connection up, then posts `data` to it. Never fails: a missing connection
     * gives false and posts nothing; otherwise exactly one post is appended and the result is true.
     */
    method SendData(connectionId: string, data: StatusMessage) returns (ok: bool)
      modifies api
      ensures api.connections == old(api.connections)
      ensures ok <==> connectionId in api.connections
      ensures api.posted == Deliver(old(api.posted), api.connections, connectionId, data)
    {
      if connectionId in api.connections {
        api.posted := api.posted + [Post(connectionId, data)];
        ok := true;
      } else {
        ok := false;
      }
    }

    /** Tells a connection the status of a transaction, through SendData. */
    method SendInvoiceStatus(transactionId: string, connectionId: string, status: InvoiceTransactionStatus) returns (ok: bool)
      modifies api
      ensures api.connections == old(api.connections)
      ensures ok <==> connectionId in api.connections
      ensures api.posted == Deliver(old(api.posted), api.connections, connectionId, StatusMessage(transactionId, status))
    {
      ok := SendData(connectionId, StatusMessage(transactionId, status));
    }
  }
}
