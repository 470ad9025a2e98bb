/**
 The admin sales report per event (app/api/admin_sales/events.py): the
 classification of an event as hybrid, online, venue or to-be-announced,
 and the step that, after the event list has been serialized, writes each
 listed event's sales figures onto the event and into the response.

 The per-event summary (summary_by_id) is a function parameter: its body is
 not part of this model.
 */
module AdminSales {
  import opened Wrappers

  // ---------------------------------------------------------------------------
  // EventInfo.event_type

  /** Python truthiness of the location name: present and not empty. */
  predicate HasLocation(locationName: Option<string>) {
    locationName.Some? && locationName.value != ""
  }

  /** EventInfo.event_type: the kind of an event, from its online flag and its location name. */
  function EventType(online: bool, locationName: Option<string>): (t: string)
    ensures t == "Hybrid" <==> online && HasLocation(locationName)
    ensures t == "Online" <==> online && !HasLocation(locationName)
    ensures t == "Venue" <==> !online && HasLocation(locationName)
    ensures t == "To be announced" <==> !online && !HasLocation(locationName)
  {
    if online then
      if HasLocation(locationName) then "Hybrid" else "Online"
    else if HasLocation(locationName) then "Venue"
    else "To be announced"
  }

  // ---------------------------------------------------------------------------
  // Decimal representation of an event id, as Python's str(int)

  function DigitChar(d: nat): char
    requires d < 10
  {
    (48 + d) as char
  }

  /** The decimal digits of `n`, without leading zeros. */
  function NatToString(n: nat): (s: string)
    ensures |s| >= 1
    ensures n >= 10 ==> |s| >= 2
  {
    if n < 10 then [DigitChar(n)] else NatToString(n / 10) + [DigitChar(n % 10)]
  }

  /** Distinct ids have distinct decimal strings, so a response record's id names at most one event. */
  lemma {:induction false} NatToStringInjective(a: nat, b: nat)
    requires NatToString(a) == NatToString(b)
    ensures a == b
  {
    var s := NatToString(a);
    if a < 10 && b < 10 {
      assert s[0] == DigitChar(a) && s[0] == DigitChar(b);
    } else if 10 <= a && 10 <= b {
      assert s[..|s| - 1] == NatToString(a / 10) && s[..|s| - 1] == NatToString(b / 10);
      assert s[|s| - 1] == DigitChar(a % 10) && s[|s| - 1] == DigitChar(b % 10);
      NatToStringInjective(a / 10, b / 10);
    }
  }

  // ---------------------------------------------------------------------------
  // Entities

  /** summary_by_id's figures for one order status. */
  datatype StatusSummary = StatusSummary(salesTotal: int, ticketCount: int)

  /** summary_by_id's result: the figures for completed, placed and pending orders. */
  datatype EventSummary = EventSummary(completed: StatusSummary, placed: StatusSummary, pending: StatusSummary)

  /** A value in a JSON:API attribute map. */
  datatype AttributeValue = IntValue(i: int) | StringValue(s: string) | NullValue

  /** One serialized resource of the response's 'data' list. */
  datatype ResourceObject = ResourceObject(id: string, attributes: map<string, AttributeValue>)

  /** An Event entity; after_get writes its six cached sales fields. */
  class Event {
    const id: nat
    const online: bool
    const locationName: Option<string>
    var completedOrderSales: int
    var placedOrderSales: int
    var pendingOrderSales: int
    var completedOrderTickets: int
    var placedOrderTickets: int
    var pendingOrderTickets: int

    constructor (id: nat, online: bool, locationName: Option<string>)
      ensures this.id == id && this.online == online && this.locationName == locationName
      ensures Figures() == EventSummary(StatusSummary(0, 0), StatusSummary(0, 0), StatusSummary(0, 0))
    {
      this.id := id;
      this.online := online;
      this.locationName := locationName;
      completedOrderSales, placedOrderSales, pendingOrderSales := 0, 0, 0;
      completedOrderTickets, placedOrderTickets, pendingOrderTickets := 0, 0, 0;
    }

    /** Writes the six cached fields from a summary. */
    method StoreFigures(sales: EventSummary)
      modifies this
      ensures Figures() == sales
    {
      completedOrderSales := sales.completed.salesTotal;
      placedOrderSales := sales.placed.salesTotal;
      pendingOrderSales := sales.pending.salesTotal;
      completedOrderTickets := sales.completed.ticketCount;
      placedOrderTickets := sales.placed.ticketCount;
      pendingOrderTickets := sales.pending.ticketCount;
    }

    /** The six cached fields, read back as a summary. */
    function Figures(): EventSummary
      reads this
    {
      EventSummary(
        StatusSummary(completedOrderSales, completedOrderTickets),
        StatusSummary(placedOrderSales, placedOrderTickets),
        StatusSummary(pendingOrderSales, pendingOrderTickets))
    }
  }

  /** The response dictionary handed to after_get; `data` is None when it has no 'data' key. */
  class Response {
    var data: Option<seq<ResourceObject>>

    constructor (data: Option<seq<ResourceObject>>)
      ensures this.data == data
    {
      this.data := data;
    }
  }

  // ---------------------------------------------------------------------------
  // Patching the response

  const COMPLETED_ORDER_SALES: string := "completed-order-sales"
  const PLACED_ORDER_SALES: string := "placed-order-sales"
  const PENDING_ORDER_SALES: string := "pending-order-sales"
  const COMPLETED_ORDER_TICKETS: string := "completed-order-tickets"
  const PLACED_ORDER_TICKETS: string := "placed-order-tickets"
  const PENDING_ORDER_TICKETS: string := "pending-order-tickets"

  /** The six attribute keys after_get writes. */
  const SALES_KEYS: set<string> := {COMPLETED_ORDER_SALES, PLACED_ORDER_SALES, PENDING_ORDER_SALES,
                                    COMPLETED_ORDER_TICKETS, PLACED_ORDER_TICKETS, PENDING_ORDER_TICKETS}

  /** An attribute map with the six sales keys set from a summary; every other key keeps its value. */
  function PatchAttributes(attributes: map<string, AttributeValue>, sales: EventSummary): (r: map<string, AttributeValue>)
    ensures r.Keys == attributes.Keys + SALES_KEYS
    ensures r[COMPLETED_ORDER_SALES] == IntValue(sales.completed.salesTotal)
    ensures r[PLACED_ORDER_SALES] == IntValue(sales.placed.salesTotal)
    ensures r[PENDING_ORDER_SALES] == IntValue(sales.pending.salesTotal)
    ensures r[COMPLETED_ORDER_TICKETS] == IntValue(sales.completed.ticketCount)
    ensures r[PLACED_ORDER_TICKETS] == IntValue(sales.placed.ticketCount)
    ensures r[PENDING_ORDER_TICKETS] == IntValue(sales.pending.ticketCount)
    ensures forall key :: key in attributes && key !in SALES_KEYS ==> r[key] == attributes[key]
  {
    attributes[COMPLETED_ORDER_SALES := IntValue(sales.completed.salesTotal)]
              [PLACED_ORDER_SALES := IntValue(sales.placed.salesTotal)]
              [PENDING_ORDER_SALES := IntValue(sales.pending.salesTotal)]
              [COMPLETED_ORDER_TICKETS := IntValue(sales.completed.ticketCount)]
              [PLACED_ORDER_TICKETS := IntValue(sales.placed.ticketCount)]
              [PENDING_ORDER_TICKETS := IntValue(sales.pending.ticketCount)]
  }

  /** Patching twice with the same summary is patching once. */
  lemma PatchAttributesIdempotent(attributes: map<string, AttributeValue>, sales: EventSummary)
    ensures PatchAttributes(PatchAttributes(attributes, sales), sales) == PatchAttributes(attributes, sales)
  {
  }

  /** The ids of the response records, in order. */
  function RecordIds(data: seq<ResourceObject>): (ids: seq<string>)
    ensures |ids| == |data|
    ensures forall j :: 0 <= j < |data| ==> ids[j] == data[j].id
  {
    if data == [] then [] else [data[0].id] + RecordIds(data[1..])
  }

  /** The position of the first occurrence of `s`, None when there is none. */
  function FirstIndexOf(ids: seq<string>, s: string): (r: Option<nat>)
    ensures r.None? <==> s !in ids
    ensures r.Some? ==> r.value < |ids| && ids[r.value] == s && forall m :: 0 <= m < r.value ==> ids[m] != s
  {
    if ids == [] then None
    else if ids[0] == s then Some(0)
    else match FirstIndexOf(ids[1..], s)
      case None => None
      case Some(k) => Some(k + 1)
  }

  /** `next(x for x in data if x['id'] == id)`, as a position in `data`. */
  function FirstIndexWithId(data: seq<ResourceObject>, id: string): Option<nat> {
    FirstIndexOf(RecordIds(data), id)
  }

  /** One iteration's change to the response: the first record whose id is str(eventId) gets the event's figures. */
  function PatchStep(data: seq<ResourceObject>, eventId: nat, summaryById: nat -> EventSummary): (r: seq<ResourceObject>)
    ensures RecordIds(r) == RecordIds(data)
  {
    match FirstIndexWithId(data, NatToString(eventId))
    case None => data
    case Some(k) => data[k := data[k].(attributes := PatchAttributes(data[k].attributes, summaryById(eventId)))]
  }

  /** The response after the loop has processed the events with ids `eventIds`, in that order. */
  function PatchedData(data: seq<ResourceObject>, eventIds: seq<nat>, summaryById: nat -> EventSummary): (r: seq<ResourceObject>)
    ensures RecordIds(r) == RecordIds(data)
  {
    if eventIds == [] then data
    else PatchStep(PatchedData(data, eventIds[..|eventIds| - 1], summaryById), eventIds[|eventIds| - 1], summaryById)
  }

  /** The ids of a list of events. */
  function IdsOf(events: seq<Event>): (ids: seq<nat>)
    ensures |ids| == |events|
    ensures forall j :: 0 <= j < |events| ==> ids[j] == events[j].id
  {
    if events == [] then [] else IdsOf(events[..|events| - 1]) + [events[|events| - 1].id]
  }

  /** `Event.query.filter(Event.id.in_(ids of data))`: the events of the table listed in the response, in table order. */
  function FetchEvents(table: seq<Event>, data: seq<ResourceObject>): (r: seq<Event>)
    ensures forall e :: e in r ==> e in table && NatToString(e.id) in RecordIds(data)
    ensures forall e :: e in table && NatToString(e.id) in RecordIds(data) ==> e in r
    ensures forall e :: e in r ==> FirstIndexWithId(data, NatToString(e.id)).Some?
  {
    if table == [] then []
    else
      var prefix := FetchEvents(table[..|table| - 1], data);
      var last := table[|table| - 1];
      assert table == table[..|table| - 1] + [last];
      if NatToString(last.id) in RecordIds(data) then prefix + [last] else prefix
  }

  lemma IdsOfExtend(events: seq<Event>, i: nat)
    requires i < |events|
    ensures IdsOf(events[..i + 1]) == IdsOf(events[..i]) + [events[i].id]
    ensures events[..i + 1] == events[..i] + [events[i]]
  {
    assert events[..i + 1][..i] == events[..i];
  }

  // ---------------------------------------------------------------------------
  // AdminSalesByEventsList.after_get

  /**
   One iteration of after_get's loop: the event's six fields get its summary,
   and so do the attributes of the first response record with its id.
   */
  method UpdateEvent(res: Response, event: Event, summaryById: nat -> EventSummary)
    requires res.data.Some?
    modifies res, event
    ensures event.Figures() == summaryById(event.id)
    ensures res.data == Some(PatchStep(old(res.data.value), event.id, summaryById))
  {
    var sales := summaryById(event.id);
    event.StoreFigures(sales);
    var data := res.data.value;
    var found := FirstIndexWithId(data, NatToString(event.id));
    if found.Some? {
      var k := found.value;
      data := data[k := data[k].(attributes := PatchAttributes(data[k].attributes, sales))];
      res.data := Some(data);
    }
  }

  /**
   after_get's loop over the fetched events: each event gets its summary on
   its six fields, and the response records are patched event by event.
   */
  method UpdateEvents(res: Response, events: seq<Event>, summaryById: nat -> EventSummary)
    requires res.data.Some?
    modifies res, events
    ensures res.data == Some(PatchedData(old(res.data.value), IdsOf(events), summaryById))
    ensures forall e :: e in events ==> e.Figures() == summaryById(e.id)
  {
    ghost var data := res.data.value;
    for i := 0 to |events|
      invariant res.data == Some(PatchedData(data, IdsOf(events[..i]), summaryById))
      invariant forall e :: e in events[..i] ==> e.Figures() == summaryById(e.id)
    {
      var event := events[i];
      IdsOfExtend(events, i);
      UpdateEvent(res, event, summaryById);
    }
    assert events[..|events|] == events;
  }

  /**
   after_get: when the response has 'data', fetches the listed events, writes
   each one's summary onto its six fields and into the attributes of the
   first response record with its id, and bulk-saves the fetched events.
   Returns the list passed to save_bulk_to_db, None when it is not called.
   */
  method AfterGet(res: Response, table: seq<Event>, summaryById: nat -> EventSummary) returns (saved: Option<seq<Event>>)
    modifies res, table
    ensures old(res.data).None? ==> saved.None? && res.data == old(res.data)
    ensures old(res.data).None? ==> forall e :: e in table ==> e.Figures() == old(e.Figures())
    ensures old(res.data).Some? ==> saved == Some(FetchEvents(table, old(res.data).value))
    ensures old(res.data).Some? ==> res.data == Some(PatchedData(old(res.data).value, IdsOf(saved.value), summaryById))
    ensures old(res.data).Some? ==> forall e :: e in saved.value ==> e.Figures() == summaryById(e.id)
    ensures old(res.data).Some? ==> forall e :: e in table && e !in saved.value ==> e.Figures() == old(e.Figures())
  {
    saved := None;
    if res.data.Some? {
      var data := res.data.value;
      var events := FetchEvents(table, data);
      assert forall i :: 0 <= i < |events| ==> events[i] in table;
      UpdateEvents(res, events, summaryById);
      saved := Some(events);
    }
  }

  // ---------------------------------------------------------------------------
  // What after_get does to the response records

  /** A record that is not the first with the id of any processed event keeps its id and attributes. */
  lemma {:induction false} PatchedDataUntouched(data: seq<ResourceObject>, eventIds: seq<nat>, summaryById: nat -> EventSummary, j: nat)
    requires j < |data|
    requires forall id :: id in eventIds ==> FirstIndexWithId(data, NatToString(id)) != Some(j)
    ensures PatchedData(data, eventIds, summaryById)[j] == data[j]
  {
    if eventIds != [] {
      var prefix := eventIds[..|eventIds| - 1];
      assert forall id :: id in prefix ==> id in eventIds;
      PatchedDataUntouched(data, prefix, summaryById, j);
      assert eventIds[|eventIds| - 1] in eventIds;
    }
  }

  /**
   The first record whose id is str(id) of a processed event gets the six
   sales attributes from summary_by_id(id); its other attributes keep their
   values.
   */
  lemma {:induction false} PatchedDataFirstMatch(data: seq<ResourceObject>, eventIds: seq<nat>, summaryById: nat -> EventSummary, id: nat, j: nat)
    requires id in eventIds
    requires FirstIndexWithId(data, NatToString(id)) == Some(j)
    ensures j < |data|
    ensures PatchedData(data, eventIds, summaryById)[j]
         == data[j].(attributes := PatchAttributes(data[j].attributes, summaryById(id)))
  {
    var prefix := eventIds[..|eventIds| - 1];
    var last := eventIds[|eventIds| - 1];
    assert eventIds == prefix + [last];
    var before := PatchedData(data, prefix, summaryById);
    if NatToString(last) == NatToString(id) {
      NatToStringInjective(last, id);
      if id in prefix {
        PatchedDataFirstMatch(data, prefix, summaryById, id, j);
        PatchAttributesIdempotent(data[j].attributes, summaryById(id));
      } else {
        forall other | other in prefix
          ensures FirstIndexWithId(data, NatToString(other)) != Some(j)
        {
          if FirstIndexWithId(data, NatToString(other)) == Some(j) {
            NatToStringInjective(other, id);
          }
        }
        PatchedDataUntouched(data, prefix, summaryById, j);
      }
    } else {
      assert id in prefix;
      PatchedDataFirstMatch(data, prefix, summaryById, id, j);
    }
  }

  /** An event that no response record names changes no record. */
  lemma PatchedDataIgnoresUnlisted(data: seq<ResourceObject>, eventIds: seq<nat>, summaryById: nat -> EventSummary, id: nat)
    requires NatToString(id) !in RecordIds(data)
    ensures PatchedData(data, eventIds + [id], summaryById) == PatchedData(data, eventIds, summaryById)
  {
    assert (eventIds + [id])[..|eventIds|] == eventIds;
  }
}
