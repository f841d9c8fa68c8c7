/** The order events handler: one event record per published order message. */
module OrderEvents {

  import opened Ddb
  import opened EventsDdb
  import opened OrderEventRepository

  /** The order details carried by a message. */
  datatype OrderEvent = OrderEvent(email: string, orderId: string, requestId: string, productCodes: seq<string>)

  /** The envelope around it, naming the event type. */
  datatype Envelope = Envelope(eventType: string, data: OrderEvent)

  /** One notification record, its message already parsed. */
  datatype SnsRecord = SnsRecord(messageId: string, envelope: Envelope)

  const OrderPkPrefix: string := "#order_"

  /** Order events expire five minutes after they are written. */
  const OrderEventTtlSeconds: nat := 5 * 60

  /** The stored record for one message read at `timestamp`. */
  function CreatEvent(record: SnsRecord, timestamp: nat): (r: OrderEventDdb)
    ensures r.pk == OrderPkPrefix + record.envelope.data.orderId
    ensures r.sk == record.envelope.eventType + "#" + IntText(timestamp)
    ensures r.ttl == timestamp / 1000 + 300 && r.createdAt == timestamp
    ensures r.email == record.envelope.data.email && r.requestId == record.envelope.data.requestId
    ensures r.eventType == record.envelope.eventType
    ensures r.info == OrderEventInfo(record.envelope.data.orderId, record.envelope.data.productCodes, record.messageId)
  {
    var event := record.envelope.data;
    OrderEventDdb(
      OrderPkPrefix + event.orderId,
      record.envelope.eventType + "#" + IntText(timestamp),
      Ttl(timestamp, OrderEventTtlSeconds),
      event.email,
      timestamp,
      event.requestId,
      record.envelope.eventType,
      OrderEventInfo(event.orderId, event.productCodes, record.messageId))
  }

  /** Events of different orders are stored under different partitions. */
  lemma DistinctOrdersDistinctKeys(a: SnsRecord, b: SnsRecord, ta: nat, tb: nat)
    requires a.envelope.data.orderId != b.envelope.data.orderId
    ensures TableKey(CreatEvent(a, ta).pk, CreatEvent(a, ta).sk) != TableKey(CreatEvent(b, tb).pk, CreatEvent(b, tb).sk)
  {
    assert CreatEvent(a, ta).pk[|OrderPkPrefix|..] == a.envelope.data.orderId;
    assert CreatEvent(b, tb).pk[|OrderPkPrefix|..] == b.envelope.data.orderId;
  }

  /**
   * Two events of the same order collide in the table exactly when they have the same type and
   * were created in the same millisecond; otherwise neither overwrites the other.
   */
  lemma SameOrderKeysCollideIff(a: SnsRecord, b: SnsRecord, ta: nat, tb: nat)
    requires a.envelope.data.orderId == b.envelope.data.orderId
    ensures TableKey(CreatEvent(a, ta).pk, CreatEvent(a, ta).sk) == TableKey(CreatEvent(b, tb).pk, CreatEvent(b, tb).sk)
      <==> a.envelope.eventType == b.envelope.eventType && ta == tb
  {
    if CreatEvent(a, ta).sk == CreatEvent(b, tb).sk {
      LabelledKeyInjective(a.envelope.eventType, b.envelope.eventType, ta, tb);
    }
  }

  /** An order event of an ORDER_ type is found by the email query of its customer. */
  lemma OrderEventIsQueried(items: map<TableKey, EventItem>, record: SnsRecord, timestamp: nat)
    requires OrderEventPrefix <= record.envelope.eventType
    ensures var e := EventsDdb.OrderEvent(CreatEvent(record, timestamp));
      e in Query(items[KeyOf(e) := e], record.envelope.data.email, OrderEventPrefix)
  {
    var e := EventsDdb.OrderEvent(CreatEvent(record, timestamp));
    var t := record.envelope.eventType;
    assert KeyOf(e).sk == t + ("#" + IntText(timestamp));
    assert t <= KeyOf(e).sk;
    assert KeyOf(e).sk[..|OrderEventPrefix|] == t[..|OrderEventPrefix|];
    assert items[KeyOf(e) := e][KeyOf(e)] == e;
  }

  /** The events a batch writes: exactly one per record, in order. */
  function Events(records: seq<SnsRecord>, clock: seq<nat>): (r: seq<EventItem>)
    requires |clock| == |records|
    ensures |r| == |records|
    ensures forall i :: 0 <= i < |records| ==> r[i] == EventsDdb.OrderEvent(CreatEvent(records[i], clock[i]))
    decreases |records|
  {
    if records == [] then []
    else
      var n := |records| - 1;
      Events(records[..n], clock[..n]) + [EventsDdb.OrderEvent(CreatEvent(records[n], clock[n]))]
  }

  /** Writes one event per record, in order; `clock[i]` is the time read for `records[i]`. */
  method Handler(repository: OrderEventRepository, records: seq<SnsRecord>, clock: seq<nat>)
    requires |clock| == |records|
    modifies repository.table
    ensures repository.table.items == PutAll(old(repository.table.items), Events(records, clock))
  {
    var i := 0;
    while i < |records|
      invariant 0 <= i <= |records|
      invariant repository.table.items == PutAll(old(repository.table.items), Events(records[..i], clock[..i]))
    {
      assert records[..i + 1][..i] == records[..i] && clock[..i + 1][..i] == clock[..i];
      var event := CreatEvent(records[i], clock[i]);
      PutAllSnoc(old(repository.table.items), Events(records[..i], clock[..i]), EventsDdb.OrderEvent(event));
      repository.CreateOrderEvent(event);
      i := i + 1;
    }
    assert records[..i] == records && clock[..i] == clock;
  }
}
