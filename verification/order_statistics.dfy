/**
 Per-ticket order statistics (app/api/order_statistics/tickets.py): for one
 ticket, the quantity sold, the number of orders and the sales amount, each
 broken down by order status.

 The database is a sequence of rows, one per OrderTicket, each carrying the
 fields of its Order and of the order's discount code (the outer join the
 queries make). A query becomes `Query`, which keeps the rows of one ticket
 and, optionally, one order status, in the table's order.
 */
module OrderStatistics {
  import opened Wrappers

  const TOTAL: string := "total"
  const DRAFT: string := "draft"
  const CANCELLED: string := "cancelled"
  const PENDING: string := "pending"
  const EXPIRED: string := "expired"
  const PLACED: string := "placed"
  const COMPLETED: string := "completed"

  /** The six order statuses the statistics break down by. */
  const STATUSES: seq<string> := [DRAFT, CANCELLED, PENDING, EXPIRED, PLACED, COMPLETED]

  /** The keys of every statistics dictionary. */
  const RESULT_KEYS: set<string> := {TOTAL, DRAFT, CANCELLED, PENDING, EXPIRED, PLACED, COMPLETED}

  datatype DiscountCode = DiscountCode(value: int)

  /** An OrderTicket row joined with its Order and, when there is one, the order's discount code. */
  datatype OrderTicketRow = OrderTicketRow(
    ticketId: nat,
    orderId: nat,
    orderStatus: string,
    price: Option<int>,
    quantity: Option<int>,
    discountCode: Option<DiscountCode>)

  /** The filter of a query: the ticket, and the order status unless `status` is None. */
  predicate Matches(row: OrderTicketRow, ticketId: nat, status: Option<string>) {
    row.ticketId == ticketId && (status.None? || row.orderStatus == status.value)
  }

  /** The rows a filtered query returns, in table order. */
  function Query(rows: seq<OrderTicketRow>, ticketId: nat, status: Option<string>): seq<OrderTicketRow> {
    if rows == [] then []
    else
      var prefix := Query(rows[..|rows| - 1], ticketId, status);
      var last := rows[|rows| - 1];
      if Matches(last, ticketId, status) then prefix + [last] else prefix
  }

  /** The status filter of the query behind a result key: 'total' filters on the ticket only. */
  function StatusFilter(key: string): Option<string> {
    if key == TOTAL then None else Some(key)
  }

  /** The sum of `f` over the rows. */
  function SumOf(rows: seq<OrderTicketRow>, f: OrderTicketRow -> int): int {
    if rows == [] then 0 else SumOf(rows[..|rows| - 1], f) + f(rows[|rows| - 1])
  }

  /** Python truthiness of a nullable number: neither None nor 0. */
  predicate Truthy(x: Option<int>) {
    x.Some? && x.value != 0
  }

  /** Python's `x or 0` on a nullable number (for a number `v`, `v or 0` is `v`, also when `v` is 0). */
  function OrZero(x: Option<int>): int {
    match x
    case None => 0
    case Some(v) => v
  }

  /** The discount per unit: the value of the order's discount code, 0 when the order has none. */
  function DiscountAmount(row: OrderTicketRow): int {
    match row.discountCode
    case None => 0
    case Some(code) => code.value
  }

  /** What one row adds to a sales total. */
  function Contribution(row: OrderTicketRow): int {
    if Truthy(row.price) && Truthy(row.quantity) then
      (row.price.value - DiscountAmount(row)) * row.quantity.value
    else 0
  }

  /** The quantity of a row, a NULL one counting as 0. */
  function QuantityOrZero(row: OrderTicketRow): int {
    OrZero(row.quantity)
  }

  /** The sales amount of a ticket in one order status: what calculated_sale_by_status returns. */
  function Sale(rows: seq<OrderTicketRow>, ticketId: nat, status: string): int {
    SumOf(Query(rows, ticketId, Some(status)), Contribution)
  }

  /** calculated_sale_by_status: accumulates (price - discount) * quantity over the matching rows. */
  method CalculatedSaleByStatus(rows: seq<OrderTicketRow>, ticketId: nat, status: string) returns (totalAmount: int)
    ensures totalAmount == Sale(rows, ticketId, status)
  {
    var orderTickets := Query(rows, ticketId, Some(status));
    totalAmount := 0;
    if orderTickets != [] {
      for i := 0 to |orderTickets|
        invariant totalAmount == SumOf(orderTickets[..i], Contribution)
      {
        var orderTicket := orderTickets[i];
        if Truthy(orderTicket.price) && Truthy(orderTicket.quantity) {
          var discountAmount := 0;
          if orderTicket.discountCode.Some? {
            discountAmount := orderTicket.discountCode.value.value;
          }
          totalAmount := totalAmount + (orderTicket.price.value - discountAmount) * orderTicket.quantity.value;
        }
        assert orderTickets[..i + 1][..i] == orderTickets[..i];
      }
      assert orderTickets[..|orderTickets|] == orderTickets;
    }
  }

  /**
   SQL SUM over the quantity column: NULL quantities are skipped, and the sum
   is NULL when no row has a quantity. Read with `or 0`, it is the sum of the
   quantities with NULL counted as 0.
   */
  function SumQuantity(rows: seq<OrderTicketRow>): (r: Option<int>)
    ensures r.None? <==> forall row :: row in rows ==> row.quantity.None?
    ensures OrZero(r) == SumOf(rows, QuantityOrZero)
  {
    if rows == [] then None
    else
      var prefix := SumQuantity(rows[..|rows| - 1]);
      assert rows == rows[..|rows| - 1] + [rows[|rows| - 1]];
      match rows[|rows| - 1].quantity
      case None => prefix
      case Some(q) => Some(OrZero(prefix) + q)
  }

  /** tickets_count: per result key, the summed quantity of the ticket's rows in that status. */
  function TicketsCount(rows: seq<OrderTicketRow>, ticketId: nat): (r: map<string, int>)
    ensures r.Keys == RESULT_KEYS
    ensures forall key :: key in r ==> r[key] == SumOf(Query(rows, ticketId, StatusFilter(key)), QuantityOrZero)
  {
    map key | key in RESULT_KEYS :: OrZero(SumQuantity(Query(rows, ticketId, StatusFilter(key))))
  }

  /**
   orders_count: per result key, what the opaque `getCount` reports for the
   query, read with `or 0`. Nothing is assumed of `getCount`.
   */
  function OrdersCount(rows: seq<OrderTicketRow>, ticketId: nat,
                       getCount: seq<OrderTicketRow> -> Option<int>): (r: map<string, int>)
    ensures r.Keys == RESULT_KEYS
    ensures forall key :: key in r ==>
      (r[key] == 0 <==> getCount(Query(rows, ticketId, StatusFilter(key))) in {None, Some(0)})
    ensures forall key :: key in r && getCount(Query(rows, ticketId, StatusFilter(key))).Some? ==>
      r[key] == getCount(Query(rows, ticketId, StatusFilter(key))).value
  {
    map key | key in RESULT_KEYS :: OrZero(getCount(Query(rows, ticketId, StatusFilter(key))))
  }

  /** sales_count: the sales amount per status, and their sum as 'total'. */
  function SalesCount(rows: seq<OrderTicketRow>, ticketId: nat): (r: map<string, int>)
    ensures r.Keys == RESULT_KEYS
    ensures forall status :: status in STATUSES ==> r[status] == Sale(rows, ticketId, status)
    ensures r[TOTAL] == r[DRAFT] + r[CANCELLED] + r[PENDING] + r[EXPIRED] + r[PLACED] + r[COMPLETED]
  {
    var draft := Sale(rows, ticketId, DRAFT);
    var cancelled := Sale(rows, ticketId, CANCELLED);
    var pending := Sale(rows, ticketId, PENDING);
    var expired := Sale(rows, ticketId, EXPIRED);
    var placed := Sale(rows, ticketId, PLACED);
    var completed := Sale(rows, ticketId, COMPLETED);
    var total := draft + cancelled + pending + expired + placed + completed;
    map[TOTAL := total, DRAFT := draft, CANCELLED := cancelled, PENDING := pending,
        EXPIRED := expired, PLACED := placed, COMPLETED := completed]
  }

  // ---------------------------------------------------------------------------
  // Facts about sums and queries

  lemma SumOfSnoc(rows: seq<OrderTicketRow>, row: OrderTicketRow, f: OrderTicketRow -> int)
    ensures SumOf(rows + [row], f) == SumOf(rows, f) + f(row)
  {
    assert (rows + [row])[..|rows|] == rows;
  }

  lemma {:induction false} SumOfAppend(a: seq<OrderTicketRow>, b: seq<OrderTicketRow>, f: OrderTicketRow -> int)
    ensures SumOf(a + b, f) == SumOf(a, f) + SumOf(b, f)
  {
    if b == [] {
      assert a + b == a;
    } else {
      var b' := b[..|b| - 1];
      SumOfAppend(a, b', f);
      assert a + b == (a + b') + [b[|b| - 1]];
      SumOfSnoc(a + b', b[|b| - 1], f);
    }
  }

  lemma QuerySnoc(rows: seq<OrderTicketRow>, row: OrderTicketRow, ticketId: nat, status: Option<string>)
    ensures Query(rows + [row], ticketId, status)
         == Query(rows, ticketId, status) + (if Matches(row, ticketId, status) then [row] else [])
  {
    assert (rows + [row])[..|rows|] == rows;
  }

  lemma {:induction false} QueryAppend(a: seq<OrderTicketRow>, b: seq<OrderTicketRow>, ticketId: nat, status: Option<string>)
    ensures Query(a + b, ticketId, status) == Query(a, ticketId, status) + Query(b, ticketId, status)
  {
    if b == [] {
      assert a + b == a;
    } else {
      var b' := b[..|b| - 1];
      var last := b[|b| - 1];
      QueryAppend(a, b', ticketId, status);
      assert a + b == (a + b') + [last];
      assert b == b' + [last];
      QuerySnoc(a + b', last, ticketId, status);
      QuerySnoc(b', last, ticketId, status);
      var tail := if Matches(last, ticketId, status) then [last] else [];
      assert Query(a, ticketId, status) + Query(b', ticketId, status) + tail
          == Query(a, ticketId, status) + (Query(b', ticketId, status) + tail);
    }
  }

  /** A query that no row matches returns nothing. */
  lemma {:induction false} QueryOfNoMatches(rows: seq<OrderTicketRow>, ticketId: nat, status: Option<string>)
    requires forall row :: row in rows ==> !Matches(row, ticketId, status)
    ensures Query(rows, ticketId, status) == []
  {
    if rows != [] {
      var prefix := rows[..|rows| - 1];
      assert forall row :: row in prefix ==> row in rows;
      QueryOfNoMatches(prefix, ticketId, status);
      assert rows[|rows| - 1] in rows;
    }
  }

  /** Appending a row to the table changes a sum over a query by the row's value exactly when the row matches. */
  lemma SumOfQuerySnoc(rows: seq<OrderTicketRow>, row: OrderTicketRow, ticketId: nat, status: Option<string>, f: OrderTicketRow -> int)
    ensures SumOf(Query(rows + [row], ticketId, status), f)
         == SumOf(Query(rows, ticketId, status), f) + Share(row, ticketId, status, f)
  {
    QuerySnoc(rows, row, ticketId, status);
    if Matches(row, ticketId, status) {
      SumOfSnoc(Query(rows, ticketId, status), row, f);
    } else {
      assert Query(rows, ticketId, status) + [] == Query(rows, ticketId, status);
    }
  }

  // ---------------------------------------------------------------------------
  // calculated_sale_by_status

  /** A ticket and status that no row matches has a sales amount of 0. */
  lemma SaleOfNoMatches(rows: seq<OrderTicketRow>, ticketId: nat, status: string)
    requires forall row :: row in rows ==> !Matches(row, ticketId, Some(status))
    ensures Sale(rows, ticketId, status) == 0
  {
    QueryOfNoMatches(rows, ticketId, Some(status));
  }

  /** The sales amount over two row sets is the sum of their amounts. */
  lemma SaleAppend(a: seq<OrderTicketRow>, b: seq<OrderTicketRow>, ticketId: nat, status: string)
    ensures Sale(a + b, ticketId, status) == Sale(a, ticketId, status) + Sale(b, ticketId, status)
  {
    QueryAppend(a, b, ticketId, Some(status));
    SumOfAppend(Query(a, ticketId, Some(status)), Query(b, ticketId, Some(status)), Contribution);
  }

  /** Inserting one row anywhere changes the amount by that row's contribution if it matches, and not otherwise. */
  lemma SaleInsert(a: seq<OrderTicketRow>, row: OrderTicketRow, b: seq<OrderTicketRow>, ticketId: nat, status: string)
    ensures Sale(a + [row] + b, ticketId, status)
         == Sale(a + b, ticketId, status) + (if Matches(row, ticketId, Some(status)) then Contribution(row) else 0)
  {
    SaleAppend(a + [row], b, ticketId, status);
    SaleAppend(a, [row], ticketId, status);
    SaleAppend(a, b, ticketId, status);
    assert Query([row], ticketId, Some(status)) == Query([], ticketId, Some(status)) + (if Matches(row, ticketId, Some(status)) then [row] else []) by {
      QuerySnoc([], row, ticketId, Some(status));
    }
    if Matches(row, ticketId, Some(status)) {
      SumOfSnoc([], row, Contribution);
    }
  }

  /** A row whose price or quantity is missing or 0 adds nothing. */
  lemma SaleSkipsRowWithoutPriceOrQuantity(a: seq<OrderTicketRow>, row: OrderTicketRow, b: seq<OrderTicketRow>, ticketId: nat, status: string)
    requires !Truthy(row.price) || !Truthy(row.quantity)
    ensures Sale(a + [row] + b, ticketId, status) == Sale(a + b, ticketId, status)
  {
    SaleInsert(a, row, b, ticketId, status);
  }

  /** A row of another ticket, or of an order in another status, adds nothing. */
  lemma SaleIgnoresOtherRows(a: seq<OrderTicketRow>, row: OrderTicketRow, b: seq<OrderTicketRow>, ticketId: nat, status: string)
    requires row.ticketId != ticketId || row.orderStatus != status
    ensures Sale(a + [row] + b, ticketId, status) == Sale(a + b, ticketId, status)
  {
    SaleInsert(a, row, b, ticketId, status);
  }

  /**
   A matching row with a price and a quantity adds (price - d) * quantity,
   where d is its order's discount-code value, or 0 without a discount code.
   */
  lemma SaleAddsRowContribution(a: seq<OrderTicketRow>, row: OrderTicketRow, b: seq<OrderTicketRow>, ticketId: nat, status: string)
    requires row.ticketId == ticketId && row.orderStatus == status
    requires Truthy(row.price) && Truthy(row.quantity)
    ensures Sale(a + [row] + b, ticketId, status)
         == Sale(a + b, ticketId, status)
            + (row.price.value - (if row.discountCode.Some? then row.discountCode.value.value else 0)) * row.quantity.value
  {
    SaleInsert(a, row, b, ticketId, status);
  }

  /** The amount is not clamped at zero: a discount above the price lowers it below what the other rows give. */
  lemma SaleNotClamped(a: seq<OrderTicketRow>, row: OrderTicketRow, b: seq<OrderTicketRow>, ticketId: nat, status: string)
    requires row.ticketId == ticketId && row.orderStatus == status
    requires row.price.Some? && row.price.value != 0 && row.quantity.Some? && row.quantity.value > 0
    requires row.discountCode.Some? && row.discountCode.value.value > row.price.value
    ensures Sale(a + [row] + b, ticketId, status) < Sale(a + b, ticketId, status)
  {
    SaleInsert(a, row, b, ticketId, status);
    NegativeTimesPositive(row.price.value - row.discountCode.value.value, row.quantity.value);
  }

  lemma NegativeTimesPositive(x: int, y: int)
    requires x < 0 < y
    ensures x * y < 0
  {
  }

  // ---------------------------------------------------------------------------
  // The 'total' entries

  /** Every row of the ticket is in one of the six statuses. */
  predicate KnownStatuses(rows: seq<OrderTicketRow>, ticketId: nat) {
    forall row :: row in rows && row.ticketId == ticketId ==> row.orderStatus in STATUSES
  }

  /** What a row adds to a sum over a query. */
  function Share(row: OrderTicketRow, ticketId: nat, status: Option<string>, f: OrderTicketRow -> int): int {
    if Matches(row, ticketId, status) then f(row) else 0
  }

  /** A row of the ticket in one of the six statuses is counted by exactly one per-status query. */
  lemma RowSharePartition(row: OrderTicketRow, ticketId: nat, f: OrderTicketRow -> int)
    requires row.ticketId == ticketId ==> row.orderStatus in STATUSES
    ensures Share(row, ticketId, None, f)
         == Share(row, ticketId, Some(DRAFT), f) + Share(row, ticketId, Some(CANCELLED), f)
          + Share(row, ticketId, Some(PENDING), f) + Share(row, ticketId, Some(EXPIRED), f)
          + Share(row, ticketId, Some(PLACED), f) + Share(row, ticketId, Some(COMPLETED), f)
  {
    if row.ticketId == ticketId {
      var s := row.orderStatus;
      if s == DRAFT {
      } else if s == CANCELLED {
      } else if s == PENDING {
      } else if s == EXPIRED {
      } else if s == PLACED {
      } else {
        assert s == COMPLETED;
      }
    }
  }

  /** When every row of the ticket is in one of the six statuses, a sum over all its rows is the sum of the six per-status sums. */
  lemma {:induction false} PartitionByStatus(rows: seq<OrderTicketRow>, ticketId: nat, f: OrderTicketRow -> int)
    requires KnownStatuses(rows, ticketId)
    ensures SumOf(Query(rows, ticketId, None), f)
         == SumOf(Query(rows, ticketId, Some(DRAFT)), f) + SumOf(Query(rows, ticketId, Some(CANCELLED)), f)
          + SumOf(Query(rows, ticketId, Some(PENDING)), f) + SumOf(Query(rows, ticketId, Some(EXPIRED)), f)
          + SumOf(Query(rows, ticketId, Some(PLACED)), f) + SumOf(Query(rows, ticketId, Some(COMPLETED)), f)
  {
    if rows != [] {
      var prefix := rows[..|rows| - 1];
      var last := rows[|rows| - 1];
      assert rows == prefix + [last];
      assert forall row :: row in prefix ==> row in rows;
      assert last in rows;
      PartitionByStatus(prefix, ticketId, f);
      RowSharePartition(last, ticketId, f);
      SumOfQuerySnoc(prefix, last, ticketId, None, f);
      SumOfQuerySnoc(prefix, last, ticketId, Some(DRAFT), f);
      SumOfQuerySnoc(prefix, last, ticketId, Some(CANCELLED), f);
      SumOfQuerySnoc(prefix, last, ticketId, Some(PENDING), f);
      SumOfQuerySnoc(prefix, last, ticketId, Some(EXPIRED), f);
      SumOfQuerySnoc(prefix, last, ticketId, Some(PLACED), f);
      SumOfQuerySnoc(prefix, last, ticketId, Some(COMPLETED), f);
    }
  }

  /**
   tickets_count's 'total' covers every status; it equals the sum of the six
   per-status entries when every row of the ticket has one of those statuses.
   */
  lemma TicketsTotalIsSumOfStatuses(rows: seq<OrderTicketRow>, ticketId: nat)
    requires KnownStatuses(rows, ticketId)
    ensures var r := TicketsCount(rows, ticketId);
      r[TOTAL] == r[DRAFT] + r[CANCELLED] + r[PENDING] + r[EXPIRED] + r[PLACED] + r[COMPLETED]
  {
    PartitionByStatus(rows, ticketId, QuantityOrZero);
  }

  /** sales_count's 'total' is the sales amount over all the ticket's rows when every row has one of the six statuses. */
  lemma SalesTotalCoversAllRows(rows: seq<OrderTicketRow>, ticketId: nat)
    requires KnownStatuses(rows, ticketId)
    ensures SalesCount(rows, ticketId)[TOTAL] == SumOf(Query(rows, ticketId, None), Contribution)
  {
    PartitionByStatus(rows, ticketId, Contribution);
  }

  /**
   A row of the ticket whose order is outside the six statuses adds its
   quantity to tickets_count's 'total' (an unfiltered query) and nothing to
   sales_count's 'total' (the sum of the six per-status amounts).
   */
  lemma OtherStatusOnlyInTicketsTotal(rows: seq<OrderTicketRow>, row: OrderTicketRow, ticketId: nat)
    requires row.ticketId == ticketId && row.orderStatus !in STATUSES
    ensures TicketsCount(rows + [row], ticketId)[TOTAL] == TicketsCount(rows, ticketId)[TOTAL] + QuantityOrZero(row)
    ensures SalesCount(rows + [row], ticketId)[TOTAL] == SalesCount(rows, ticketId)[TOTAL]
  {
    SumOfQuerySnoc(rows, row, ticketId, None, QuantityOrZero);
    assert rows + [row] + [] == rows + [row] && rows + [] == rows;
    forall status | status in STATUSES
      ensures Sale(rows + [row], ticketId, status) == Sale(rows, ticketId, status)
    {
      SaleIgnoresOtherRows(rows, row, [], ticketId, status);
    }
  }

  /**
   A ticket without rows gets 0 in every entry of tickets_count and
   sales_count, and of orders_count when `getCount` reports NULL or 0 for
   an empty query.
   */
  lemma UnsoldTicketIsAllZero(rows: seq<OrderTicketRow>, ticketId: nat, getCount: seq<OrderTicketRow> -> Option<int>)
    requires forall row :: row in rows ==> row.ticketId != ticketId
    requires getCount([]) in {None, Some(0)}
    ensures forall key :: key in RESULT_KEYS ==>
      TicketsCount(rows, ticketId)[key] == 0 && SalesCount(rows, ticketId)[key] == 0
      && OrdersCount(rows, ticketId, getCount)[key] == 0
  {
    forall status: Option<string> ensures Query(rows, ticketId, status) == [] {
      QueryOfNoMatches(rows, ticketId, status);
    }
  }
}
