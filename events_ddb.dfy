/**
 * The events table, shared by order events and invoice events, and the expiry time both
 * handlers give their events.
 */
module EventsDdb {

  import opened Wrappers
  import opened Ddb

  datatype OrderEventInfo = OrderEventInfo(orderId: string, productCodes: seq<string>, messageId: string)

  /** An order event as stored (orderEventRepository.ts). */
  datatype OrderEventDdb = OrderEventDdb(
    pk: string,
    sk: string,
    ttl: int,
    email: string,
    createdAt: int,
    requestId: string,
    eventType: string,
    info: OrderEventInfo)

  /** `info` of an invoice event: each field is undefined when the image does not carry it. */
  datatype InvoiceEventInfo = InvoiceEventInfo(transaction: Option<string>, productId: Option<string>)

  /** An invoice event as stored; `email` is undefined when the invoice key has no second field. */
  datatype InvoiceEventDdb = InvoiceEventDdb(
    pk: string,
    sk: string,
    ttl: int,
    email: Option<string>,
    createdAt: int,
    eventType: string,
    info: InvoiceEventInfo)

  datatype EventItem = OrderEvent(order: OrderEventDdb) | InvoiceEvent(invoice: InvoiceEventDdb)

  function KeyOf(e: EventItem): TableKey
  {
    match e
    case OrderEvent(o) => TableKey(o.pk, o.sk)
    case InvoiceEvent(i) => TableKey(i.pk, i.sk)
  }

  function EmailOf(e: EventItem): Option<string>
  {
    match e
    case OrderEvent(o) => Some(o.email)
    case InvoiceEvent(i) => i.email
  }

  /** The events table. */
  class EventsTable {
    var items: map<TableKey, EventItem>

    constructor ()
      ensures items == map[]
    {
      items := map[];
    }
  }

  /** The table after unconditional puts of `events`, in order. */
  function PutAll(items: map<TableKey, EventItem>, events: seq<EventItem>): (r: map<TableKey, EventItem>)
    ensures forall e :: e in events ==> KeyOf(e) in r
    ensures forall k :: k in items ==> k in r
    decreases |events|
  {
    if events == [] then items
    else
      var n := |events| - 1;
      PutAll(items, events[..n])[KeyOf(events[n]) := events[n]]
  }

  /** One more put on top of a run of puts. */
  lemma PutAllSnoc(items: map<TableKey, EventItem>, events: seq<EventItem>, e: EventItem)
    ensures PutAll(items, events + [e]) == PutAll(items, events)[KeyOf(e) := e]
  {
    assert (events + [e])[..|events|] == events;
  }

  /** The keys of a run of events. */
  function Keys(events: seq<EventItem>): set<TableKey>
    decreases |events|
  {
    if events == [] then {}
    else
      var n := |events| - 1;
      Keys(events[..n]) + {KeyOf(events[n])}
  }

  /**
   * A run of puts adds exactly the events' keys, leaves every other entry as it was, and
   * leaves one of the events under each key it wrote.
   */
  lemma {:induction false} PutAllKeys(items: map<TableKey, EventItem>, events: seq<EventItem>)
    ensures PutAll(items, events).Keys == items.Keys + Keys(events)
    ensures forall k :: k in items && k !in Keys(events) ==> PutAll(items, events)[k] == items[k]
    ensures forall k :: k in Keys(events) ==> PutAll(items, events)[k] in events
    decreases |events|
  {
    if events != [] {
      var n := |events| - 1;
      PutAllKeys(items, events[..n]);
      assert events == events[..n] + [events[n]];
      forall k | k in Keys(events) ensures PutAll(items, events)[k] in events {
        if k != KeyOf(events[n]) {
          assert PutAll(items, events[..n])[k] in events[..n];
        }
      }
    }
  }

  // Expiry of events: `~~(timestamp / 1000 + seconds)`.

  const Two31: int := 0x8000_0000
  const Two32: int := 0x1_0000_0000

  /** JavaScript's ToInt32 on an integer: wraps into [-2^31, 2^31). */
  function ToInt32(n: int): (r: int)
    ensures -Two31 <= r < Two31
    ensures (r - n) % Two32 == 0
  {
    var m := n % Two32;
    if m >= Two31 then m - Two32 else m
  }

  /** The ttl as written: seconds of the timestamp plus an offset, through `~~`, which wraps at 2^31. */
  function TruncatedTtl(timestamp: nat, seconds: nat): (r: int)
    ensures -Two31 <= r < Two31
    ensures (r - Ttl(timestamp, seconds)) % Two32 == 0
  {
    ToInt32(timestamp / 1000 + seconds)
  }

  /** The ttl as intended: `seconds` after the second the event was created in. */
  function Ttl(timestamp: nat, seconds: nat): (r: int)
    ensures (r - seconds) * 1000 <= timestamp < (r - seconds + 1) * 1000
    ensures r * 1000 > timestamp + (seconds as int - 1) * 1000
  {
    timestamp / 1000 + seconds
  }

  /** As written, the two agree until the ttl reaches 2^31 seconds (January 2038). */
  lemma TruncatedTtlAgreesBefore2038(timestamp: nat, seconds: nat)
    requires timestamp / 1000 + seconds < Two31
    ensures TruncatedTtl(timestamp, seconds) == Ttl(timestamp, seconds)
  {
  }

  /**
   * From 2^31 seconds until 2^32 seconds `~~` wraps to a negative number instead of a time
   * `seconds` after the event.
   */
  lemma TruncatedTtlWraps(timestamp: nat, seconds: nat)
    requires Two31 <= timestamp / 1000 + seconds < Two32
    ensures TruncatedTtl(timestamp, seconds) == Ttl(timestamp, seconds) - Two32
    ensures TruncatedTtl(timestamp, seconds) < 0
  {
  }

  /** One instance: an invoice event created at 2^31 seconds (January 2038) with the one-hour lifetime. */
  lemma TruncatedTtlIn2038()
    ensures Ttl(2147483648000, 3600) == 2147487248
    ensures TruncatedTtl(2147483648000, 3600) == -2147480048
  {
    TruncatedTtlWraps(2147483648000, 3600);
  }
}
