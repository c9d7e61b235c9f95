/** Orders of one store and the counter dashboard that works on them: the
    status filters, the "Preparing" and "Complete" buttons, and clearing the
    history of completed orders. */
module Orders {
  import opened Wrappers
  import opened Prices
  import opened DailySales

  datatype Status = Pending | Preparing | Completed

  /** An order document. The customer page stores the total as the text
      `str(total)` and the dashboard reads it back with `int(...)`; since that
      reading gives back the number written (`IntOfDecimal`), the total is held
      here as the number itself. */
  datatype Order = Order(tableNo: string, items: string, total: nat, status: Status, timestamp: string)

  /** `status in ['pending', 'preparing']` */
  predicate IsActive(s: Status)
  {
    s == Pending || s == Preparing
  }

  /** Position in the life cycle pending -> preparing -> completed. */
  function Rank(s: Status): nat
  {
    match s
    case Pending => 0
    case Preparing => 1
    case Completed => 2
  }

  /** `int(text)` on the decimal text of a natural number; any other text
      raises. */
  function IntOf(text: string): (r: Option<nat>)
    ensures r.Some? <==> text != [] && forall i :: 0 <= i < |text| ==> IsAsciiDigit(text[i])
  {
    if text != [] && forall i :: 0 <= i < |text| ==> IsAsciiDigit(text[i]) then Some(Value(Digits(text)))
    else None
  }

  /** `int(str(n)) == n`: the total the customer page stores is read back
      exactly, so the dashboard's `int(order['total'])` never raises on an
      order the app wrote. */
  lemma IntOfDecimal(n: nat)
    ensures IntOf(Decimal(n)) == Some(n)
  {
  }

  // ---------------------------------------------------------------------------
  // Writes on the orders collection
  // ---------------------------------------------------------------------------

  /** `save_order`: the document `orderId` is written as a new pending order
      (an existing document with that id is overwritten). */
  function Submit(orders: map<string, Order>, orderId: string, tableNo: string, items: string,
                  total: nat, timestamp: string): map<string, Order>
  {
    orders[orderId := Order(tableNo, items, total, Pending, timestamp)]
  }

  /** The id sets the dashboard works with. */
  function ActiveIds(orders: map<string, Order>): set<string>
  {
    set id | id in orders && IsActive(orders[id].status)
  }

  function CompletedIds(orders: map<string, Order>): set<string>
  {
    set id | id in orders && orders[id].status == Completed
  }

  /** No order that survives a step has moved back in its life cycle. */
  predicate NeverBackwards(before: map<string, Order>, after: map<string, Order>)
  {
    forall id | id in before && id in after :: Rank(before[id].status) <= Rank(after[id].status)
  }

  /** A submitted order under a fresh id is one more active order; nothing
      else changes. */
  lemma SubmitEffect(orders: map<string, Order>, orderId: string, tableNo: string, items: string,
                     total: nat, timestamp: string)
    requires orderId !in orders
    ensures var r := Submit(orders, orderId, tableNo, items, total, timestamp);
      && r[orderId].status == Pending
      && ActiveIds(r) == ActiveIds(orders) + {orderId}
      && CompletedIds(r) == CompletedIds(orders)
      && NeverBackwards(orders, r)
  {
    var r := Submit(orders, orderId, tableNo, items, total, timestamp);
    assert ActiveIds(r) == ActiveIds(orders) + {orderId};
  }

  // ---------------------------------------------------------------------------
  // The dashboard buttons
  // ---------------------------------------------------------------------------

  /** The orders and the daily sales aggregate, which "Complete" changes together. */
  datatype Ledger = Ledger(orders: map<string, Order>, sales: map<string, Sales>)

  /** "Preparing": the button exists only on pending orders, so a click on any
      other order has no effect. */
  function StartPreparing(orders: map<string, Order>, id: string): map<string, Order>
  {
    if id in orders && orders[id].status == Pending then orders[id := orders[id].(status := Preparing)]
    else orders
  }

  /** "Complete": shown on every active order; books the order's total on
      today's sales and marks the order completed. */
  function Complete(l: Ledger, id: string, today: string): Ledger
  {
    if id in l.orders && IsActive(l.orders[id].status) then
      var o := l.orders[id];
      Ledger(l.orders[id := o.(status := Completed)], RecordSale(l.sales, today, o.total))
    else l
  }

  /** Confirmed "clear history": every completed order is deleted. */
  function ClearHistory(orders: map<string, Order>): map<string, Order>
  {
    map id | id in orders && orders[id].status != Completed :: orders[id]
  }

  /** "Preparing" moves exactly a pending order forward and touches nothing else. */
  lemma StartPreparingEffect(orders: map<string, Order>, id: string)
    ensures var r := StartPreparing(orders, id);
      && r.Keys == orders.Keys
      && NeverBackwards(orders, r)
      && (forall k | k in orders && k != id :: r[k] == orders[k])
      && (id in orders ==> r[id].status == (if orders[id].status == Pending then Preparing else orders[id].status))
      && ActiveIds(r) == ActiveIds(orders)
  {
    var r := StartPreparing(orders, id);
    assert ActiveIds(r) == ActiveIds(orders);
  }

  /** "Complete" on an active order: the order is completed, the day's sales
      grow by its total and by one order, and everything else stays. */
  lemma CompleteEffect(l: Ledger, id: string, today: string)
    requires id in l.orders && IsActive(l.orders[id].status)
    ensures var r := Complete(l, id, today);
      && r.orders.Keys == l.orders.Keys
      && r.orders[id] == l.orders[id].(status := Completed)
      && (forall k | k in l.orders && k != id :: r.orders[k] == l.orders[k])
      && NeverBackwards(l.orders, r.orders)
      && (forall d | d != today :: Lookup(r.sales, d) == Lookup(l.sales, d))
      && Lookup(r.sales, today) == Sales(Lookup(l.sales, today).total + l.orders[id].total,
                                         Lookup(l.sales, today).orderCount + 1)
  {
    RecordSaleEffect(l.sales, today, l.orders[id].total);
  }

  /** A second "Complete" on the same order books nothing more. */
  lemma CompleteOnce(l: Ledger, id: string, today: string, later: string)
    ensures Complete(Complete(l, id, today), id, later) == Complete(l, id, today)
  {
  }

  /** Every order "Complete" takes off the active list is counted once in
      the day's completed orders: the sum of the two is kept. */
  lemma CompleteConserves(l: Ledger, id: string, today: string)
    requires id in l.orders && IsActive(l.orders[id].status)
    ensures var r := Complete(l, id, today);
      Lookup(r.sales, today).orderCount + |ActiveIds(r.orders)|
        == Lookup(l.sales, today).orderCount + |ActiveIds(l.orders)|
  {
    var r := Complete(l, id, today);
    CompleteEffect(l, id, today);
    assert ActiveIds(r.orders) == ActiveIds(l.orders) - {id};
  }

  /** Clearing the history deletes exactly the completed orders; the active
      orders are kept as they are, and clearing again changes nothing. */
  lemma ClearHistoryEffect(orders: map<string, Order>)
    ensures var r := ClearHistory(orders);
      && r.Keys == orders.Keys - CompletedIds(orders)
      && (forall k | k in r :: r[k] == orders[k])
      && CompletedIds(r) == {}
      && ActiveIds(r) == ActiveIds(orders)
      && ClearHistory(r) == r
  {
    var r := ClearHistory(orders);
    assert r.Keys == orders.Keys - CompletedIds(orders);
    assert ActiveIds(r) == ActiveIds(orders);
  }

  // ---------------------------------------------------------------------------
  // The dashboard listing and its filters
  // ---------------------------------------------------------------------------

  /** An order as `load_orders` lists it, with its document id. */
  datatype Listed = Listed(orderId: string, order: Order)

  /** The list comprehensions of the dashboard: by one status, the active
      orders, and "completed today" (`timestamp.startswith(today)`). */
  datatype Filter = HasStatus(status: Status) | ActiveOnly | StampedOn(day: string)

  predicate Shows(f: Filter, x: Listed)
  {
    match f
    case HasStatus(s) => x.order.status == s
    case ActiveOnly => IsActive(x.order.status)
    case StampedOn(day) => day <= x.order.timestamp
  }

  /** `[o for o in orders if ...]`: the listed orders the filter shows, in
      listing order. */
  function Select(listing: seq<Listed>, f: Filter): (r: seq<Listed>)
    ensures |r| <= |listing|
    ensures forall x :: x in r <==> x in listing && Shows(f, x)
  {
    if listing == [] then []
    else
      var last := listing[|listing| - 1];
      Select(listing[..|listing| - 1], f) + (if Shows(f, last) then [last] else [])
  }

  /** Filtering keeps the listing order: the orders shown from a longer
      listing are those of its first part followed by those of its second. */
  lemma {:induction false} SelectConcat(a: seq<Listed>, b: seq<Listed>, f: Filter)
    ensures Select(a + b, f) == Select(a, f) + Select(b, f)
  {
    if b == [] {
      assert a + b == a;
    } else {
      var b' := b[..|b| - 1];
      assert (a + b)[..|a + b| - 1] == a + b';
      SelectConcat(a, b', f);
    }
  }

  /** Each shown order appears as often as in the listing. */
  lemma {:induction false} SelectCounts(listing: seq<Listed>, f: Filter, x: Listed)
    ensures multiset(Select(listing, f))[x] == if Shows(f, x) then multiset(listing)[x] else 0
  {
    if listing != [] {
      var init := listing[..|listing| - 1];
      SelectCounts(init, f, x);
      assert listing == init + [listing[|listing| - 1]];
    }
  }

  /** Every listed order is either on the active board or in the history,
      and the two counters at the top add up to the active board. */
  lemma {:induction false} BoardPartition(listing: seq<Listed>)
    ensures |Select(listing, ActiveOnly)| + |Select(listing, HasStatus(Completed))| == |listing|
    ensures |Select(listing, ActiveOnly)|
      == |Select(listing, HasStatus(Pending))| + |Select(listing, HasStatus(Preparing))|
  {
    if listing != [] {
      BoardPartition(listing[..|listing| - 1]);
    }
  }

  /** The history of today: exactly the listed completed orders whose
      timestamp starts with today's date, and none of them is on the board. */
  lemma HistoryOfToday(listing: seq<Listed>, today: string)
    ensures forall x :: (x in Select(Select(listing, HasStatus(Completed)), StampedOn(today))
      <==> x in listing && x.order.status == Completed && today <= x.order.timestamp)
    ensures forall x :: x in Select(listing, ActiveOnly) ==> x !in Select(listing, HasStatus(Completed))
  {
  }

  /** The listing is a faithful snapshot of the collection. */
  predicate Lists(listing: seq<Listed>, orders: map<string, Order>)
  {
    && (forall x | x in listing :: x.orderId in orders && orders[x.orderId] == x.order)
    && (forall id | id in orders :: Listed(id, orders[id]) in listing)
  }

  function IdsOf(listing: seq<Listed>): set<string>
  {
    set x | x in listing :: x.orderId
  }

  /** On a snapshot, the history holds exactly the completed orders and the
      board exactly the active ones. */
  lemma ListedIds(listing: seq<Listed>, orders: map<string, Order>)
    requires Lists(listing, orders)
    ensures IdsOf(Select(listing, HasStatus(Completed))) == CompletedIds(orders)
    ensures IdsOf(Select(listing, ActiveOnly)) == ActiveIds(orders)
  {
    var done := Select(listing, HasStatus(Completed));
    forall id | id in CompletedIds(orders)
      ensures id in IdsOf(done)
    {
      assert Listed(id, orders[id]) in done;
    }
    var active := Select(listing, ActiveOnly);
    forall id | id in ActiveIds(orders)
      ensures id in IdsOf(active)
    {
      assert Listed(id, orders[id]) in active;
    }
  }
}
