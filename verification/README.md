# Event-ticketing sales statistics, modelled in Dafny

This project models the arithmetic core of two JSON:API endpoints of an
event-ticketing server (open-event-server):

- **Per-ticket order statistics** (`app/api/order_statistics/tickets.py`),
  module `OrderStatistics` in `order_statistics.dfy`. For one ticket it gives
  three dictionaries keyed by `total` and the six order statuses (`draft`,
  `cancelled`, `pending`, `expired`, `placed`, `completed`): the summed ticket
  quantity, the number of orders, and the sales amount. The sales amount of
  one status is computed by `calculated_sale_by_status`, a loop that adds
  `(price - discount) * quantity` for every matching OrderTicket row whose
  price and quantity are both set and non-zero. The discount is the value of
  the order's discount code, or 0 without one. The amount is never clamped at
  zero.
- **Admin sales report per event** (`app/api/admin_sales/events.py`), module
  `AdminSales` in `admin_sales.dfy`. `EventInfo.event_type` classifies an
  event as Hybrid, Online, Venue or To be announced. `after_get` runs after the
  event list has been serialized. It fetches the listed events and writes each
  one's sales summary onto six cached fields of the event. It copies the same
  six figures into the attribute map of the first response record whose id is
  the event's id, then bulk-saves the events.

`wrappers.dfy` holds the `Option` type used for nullable columns and values.

The database is a sequence of rows. Each row is one OrderTicket joined with
its Order and, through the outer join, with the order's discount code. A
filtered query becomes `Query(rows, ticketId, status)`, which keeps the
matching rows in table order; `status = None` stands for the unfiltered
`total` queries. `calculated_sale_by_status` is the method
`CalculatedSaleByStatus`, which keeps the source's loop. It is proved equal to
the specification function `Sale`, and the properties of the sales arithmetic
are lemmas about `Sale`. Events are objects (`AdminSales.Event`) whose six
cached fields are updated in place. The response dictionary is an object
(`AdminSales.Response`) whose `data` list of resource records is reassigned as
records are patched. `after_get`'s effect on the response is specified by the
function `PatchedData`. It folds one `PatchStep` per fetched event, in fetch
order, and the `PatchedData*` lemmas state which records change and how.

`summary_by_id` and `get_count` are function parameters (`summaryById`,
`getCount`); nothing is assumed about them. `str(event.id)` is the decimal
rendering `NatToString`, proved injective. Money and quantities are
integers.

Two properties of the code as written are stated as lemmas:

- The sales amount goes negative when a discount exceeds the price
  (`SaleNotClamped`).
- The two `total` entries treat an order in any other status (for example
  `initializing`) differently. `tickets_count`'s `total` is an unfiltered
  query and adds that order's quantity (nothing when the quantity is NULL or
  0). `sales_count`'s `total` adds up only
  the six statuses and leaves the order's amount out
  (`OtherStatusOnlyInTicketsTotal`). When every order of the ticket is in one
  of the six statuses, each total covers exactly the ticket's rows: the
  quantity total is the sum of the six quantity entries
  (`TicketsTotalIsSumOfStatuses`), and the sales total is the amount over all
  the ticket's rows (`SalesTotalCoversAllRows`).

## Model

| member | source | states |
|---|---|---|
| `OrderStatistics.CalculatedSaleByStatus` | app/api/order_statistics/tickets.py:14-32 | The loop's result is the sales amount `Sale` of the ticket's rows in the given status |
| `OrderStatistics.SaleOfNoMatches` | app/api/order_statistics/tickets.py:19-32 | When no row has the ticket id and the status, the sales amount is 0 |
| `OrderStatistics.QueryOfNoMatches` | app/api/order_statistics/tickets.py:19-21 | A query that no row matches returns no rows |
| `OrderStatistics.SaleSkipsRowWithoutPriceOrQuantity` | app/api/order_statistics/tickets.py:25 | A row whose price or quantity is missing or 0 adds nothing, wherever it sits in the table |
| `OrderStatistics.SaleAddsRowContribution` | app/api/order_statistics/tickets.py:26-31 | A matching row with price and quantity adds (price - d) * quantity; d is the order's discount-code value, or 0 without a code |
| `OrderStatistics.SaleIgnoresOtherRows` | app/api/order_statistics/tickets.py:19-21 | A row of another ticket, or of an order in another status, leaves the amount unchanged |
| `OrderStatistics.SaleNotClamped` | app/api/order_statistics/tickets.py:29-31 | A row whose discount exceeds its price lowers the amount: the total is not clamped at zero |
| `OrderStatistics.SaleAppend` | app/api/order_statistics/tickets.py:22-31 | The amount over two concatenated row sets is the sum of their amounts |
| `OrderStatistics.SaleInsert` | app/api/order_statistics/tickets.py:19-31 | Inserting a row anywhere changes the amount by its contribution if it matches the ticket and status, and not otherwise |
| `OrderStatistics.SumQuantity` | app/api/order_statistics/tickets.py:58-63 | SQL SUM of the quantities is NULL exactly when no row has a quantity; read with `or 0` it is the sum with NULL as 0 |
| `OrderStatistics.TicketsCount` | app/api/order_statistics/tickets.py:56-109 | The dictionary has the seven keys; each value is the summed quantity (NULL as 0) of the ticket's rows in that status, or in all statuses for `total` |
| `OrderStatistics.OrdersCount` | app/api/order_statistics/tickets.py:111-157 | The dictionary has the seven keys; a value is 0 exactly when get_count reports NULL or 0 for its query, and otherwise is that count |
| `OrderStatistics.SalesCount` | app/api/order_statistics/tickets.py:159-177 | The dictionary has the seven keys; each status maps to its sales amount and `total` is the sum of the six |
| `OrderStatistics.PartitionByStatus` | app/api/order_statistics/tickets.py:58-99 | When every row of the ticket is in one of the six statuses, a sum over all its rows equals the sum of the six per-status sums |
| `OrderStatistics.RowSharePartition` | app/api/order_statistics/tickets.py:64-99 | A row of the ticket in one of the six statuses is selected by exactly one of the six per-status queries, as well as by the `total` query |
| `OrderStatistics.TicketsTotalIsSumOfStatuses` | app/api/order_statistics/tickets.py:58-108 | tickets_count's `total` equals the sum of its six status entries when every row of the ticket is in one of the six statuses |
| `OrderStatistics.SalesTotalCoversAllRows` | app/api/order_statistics/tickets.py:159-167 | sales_count's `total` is the sales amount over all the ticket's rows when every row is in one of the six statuses |
| `OrderStatistics.OtherStatusOnlyInTicketsTotal` | app/api/order_statistics/tickets.py:58-167 | Adding a row of the ticket whose order is outside the six statuses raises tickets_count's `total` by the row's quantity (NULL as 0) and leaves sales_count's `total` unchanged |
| `OrderStatistics.UnsoldTicketIsAllZero` | app/api/order_statistics/tickets.py:100-176 | For a ticket with no rows, every entry of the three dictionaries is 0 (orders_count's when get_count reports NULL or 0 for an empty query) |
| `AdminSales.EventType` | app/api/admin_sales/events.py:39-48 | Hybrid iff online with a location name; Online iff online without one; Venue iff not online with one; To be announced iff neither |
| `AdminSales.NatToStringInjective` | app/api/admin_sales/events.py:105 | Distinct event ids have distinct `str` forms, so a record id names at most one event |
| `AdminSales.FetchEvents` | app/api/admin_sales/events.py:93-95 | The fetched events are exactly the table's events whose id appears among the response records' ids, so each fetched event has a matching record |
| `AdminSales.FirstIndexOf` | app/api/admin_sales/events.py:105 | The result is the position of the first record with the id, and None exactly when no record has it |
| `AdminSales.PatchAttributes` | app/api/admin_sales/events.py:107-124 | The six dash-named keys get the summary's sales totals and ticket counts; every other key keeps its value |
| `AdminSales.PatchStep` | app/api/admin_sales/events.py:105-124 | Patching the first record that has an event's id keeps every record id in place |
| `AdminSales.PatchedData` | app/api/admin_sales/events.py:96-124 | Patching for every event in turn keeps the list's length and every record id |
| `AdminSales.Event.StoreFigures` | app/api/admin_sales/events.py:99-104 | The event's six cached fields equal the summary's completed/placed/pending sales totals and ticket counts |
| `AdminSales.UpdateEvent` | app/api/admin_sales/events.py:97-124 | One iteration sets the event's six fields to summary_by_id(event.id) and applies one `PatchStep` to the response |
| `AdminSales.UpdateEvents` | app/api/admin_sales/events.py:96-124 | After the loop every fetched event holds its summary, and the response is `PatchedData` over the fetched ids |
| `AdminSales.AfterGet` | app/api/admin_sales/events.py:89-125 | Without 'data', the response and all events are untouched and nothing is saved. With it, the fetched events are saved and hold their summaries, other events are untouched, and the response is `PatchedData` |
| `AdminSales.PatchedDataUntouched` | app/api/admin_sales/events.py:105-124 | A record that is not the first with the id of any processed event is unchanged |
| `AdminSales.PatchedDataFirstMatch` | app/api/admin_sales/events.py:105-124 | The first record with a processed event's id gets that event's six figures; its other attributes and id are unchanged |
| `AdminSales.PatchedDataIgnoresUnlisted` | app/api/admin_sales/events.py:105-106 | An id that no record carries leaves the patched records unchanged, as the `is not None` guard does. In this model such an event never reaches `AfterGet`, because the fetch compares ids as strings |

## Left out

- `app/api/video_channel_stream.py`: only selects a schema through permission checks and an ORM lookup, which are calls into code that is not part of this model.
- `tests/factories/*.py`: declarative test data with no behaviour.
- The SQL queries, joins and the database session. A query is a filter over a row sequence in table order. The database's row order and its type casts are not modelled; one example is `Event.id.in_` comparing integer ids with the records' string ids, which is modelled as equality of decimal strings. So in the model every fetched event has a matching response record. The source's case of a fetched event with no matching record, which is updated and saved but patches nothing, does not reach `AfterGet`. `PatchedDataIgnoresUnlisted` states the patch side of that case on its own.
- `save_bulk_to_db`: persistence I/O. `AfterGet` returns the list of events it would be given.
- `summary_by_id` and `get_count`: their bodies are not part of this model. They are function parameters, and `OrdersCount` claims no distinct-order counting.
- The marshmallow/JSON:API schemas, `Meta` classes, `dasherize`, the `has_permission` decorators, and the trivial accessors `event_owner` and `event_owner_id`.
- Floating-point prices: money is an exact integer.
- A discount code whose value is NULL, which makes the subtraction raise in Python: the model takes every discount code to have a value.
- `sales_count`'s `x or 0` on integers is the identity and is not written out.
- Aliasing in the response: a record is a value in a sequence. The same dictionary appearing twice in `data` is not modelled. A record's keys other than `id` and `attributes`, and the response's keys other than `data`, are not modelled.
