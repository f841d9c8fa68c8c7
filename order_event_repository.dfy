/**
 * OrderEventRepository: writes order events and queries the events table by email and
 * sort-key prefix.
 */
module OrderEventRepository {

  import opened Wrappers
  import opened Ddb
  import opened EventsDdb

  /** The sort-key prefix every order event type starts with. */
  const OrderEventPrefix: string := "ORDER_"

  /** Every item is stored under its own (pk, sk). */
  ghost predicate Keyed(items: map<TableKey, EventItem>)
  {
    forall k :: k in items ==> KeyOf(items[k]) == k
  }

  /** The events with this email whose sort key starts with `prefix`. */
  function Query(items: map<TableKey, EventItem>, email: string, prefix: string): (r: set<EventItem>)
    ensures forall e :: e in r <==> e in items.Values && EmailOf(e) == Some(email) && prefix <= KeyOf(e).sk
  {
    set e | e in items.Values && EmailOf(e) == Some(email) && prefix <= KeyOf(e).sk
  }

  /** A longer prefix selects a subset: a query by one order event type sees only order events. */
  lemma QueryNarrows(items: map<TableKey, EventItem>, email: string, prefix: string, longer: string)
    requires prefix <= longer
    ensures Query(items, email, longer) <= Query(items, email, prefix)
  {
    forall e | e in Query(items, email, longer) ensures prefix <= KeyOf(e).sk {
      assert longer <= KeyOf(e).sk;
      assert KeyOf(e).sk[..|prefix|] == longer[..|prefix|];
    }
  }

  /**
   * After a put the new event is found exactly when it matches, and every earlier match
   * under another key is still found.
   */
  lemma QueryAfterPut(items: map<TableKey, EventItem>, e: EventItem, email: string, prefix: string)
    requires Keyed(items)
    ensures Keyed(items[KeyOf(e) := e])
    ensures e in Query(items[KeyOf(e) := e], email, prefix) <==> EmailOf(e) == Some(email) && prefix <= KeyOf(e).sk
    ensures forall x :: x in Query(items, email, prefix) && KeyOf(x) != KeyOf(e) ==> x in Query(items[KeyOf(e) := e], email, prefix)
  {
    var after := items[KeyOf(e) := e];
    assert after[KeyOf(e)] == e;
    forall x | x in Query(items, email, prefix) && KeyOf(x) != KeyOf(e)
      ensures x in after.Values
    {
      var k :| k in items && items[k] == x;
      assert after[k] == x;
    }
  }

  class OrderEventRepository {
    const table: EventsTable

    constructor (table: EventsTable)
      ensures this.table == table
    {
      this.table := table;
    }

    /** Puts the event under its (pk, sk); nothing else changes. */
    method CreateOrderEvent(orderEvent: OrderEventDdb)
      modifies table
      ensures table.items == old(table.items)[TableKey(orderEvent.pk, orderEvent.sk) := OrderEvent(orderEvent)]
    {
      table.items := table.items[TableKey(orderEvent.pk, orderEvent.sk) := OrderEvent(orderEvent)];
    }

    /** The order events of one email: its events whose sort key starts with ORDER_. */
    method GetOrderEventsByEmail(email: string) returns (r: set<EventItem>)
      ensures forall e :: e in r <==> e in table.items.Values && EmailOf(e) == Some(email) && OrderEventPrefix <= KeyOf(e).sk
    {
      r := Query(table.items, email, OrderEventPrefix);
    }

    /** The events of one email whose sort key starts with `eventType`. */
    method GetOrderEventsByEmailAndEventType(email: string, eventType: string) returns (r: set<EventItem>)
      ensures forall e :: e in r <==> e in table.items.Values && EmailOf(e) == Some(email) && eventType <= KeyOf(e).sk
      ensures OrderEventPrefix <= eventType ==> r <= Query(table.items, email, OrderEventPrefix)
    {
      r := Query(table.items, email, eventType);
      if OrderEventPrefix <= eventType {
        QueryNarrows(table.items, email, OrderEventPrefix, eventType);
      }
    }
  }
}
