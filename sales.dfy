/** The per-store daily sales aggregate: one record per calendar day
    ("YYYY-MM-DD"), holding the day's takings and its number of completed orders. */
module DailySales {

  datatype Sales = Sales(total: nat, orderCount: nat)

  /** `get_daily_sales`: the day's record, or (0, 0) when the day has none. */
  function Lookup(sales: map<string, Sales>, day: string): Sales
  {
    if day in sales then sales[day] else Sales(0, 0)
  }

  /** What `add_to_daily_sales` leaves behind, in one piece: whether the day
      had a record or not, the day now reads as its previous reading plus the
      amount and one more order. */
  function RecordSale(sales: map<string, Sales>, day: string, amount: nat): map<string, Sales>
  {
    var before := Lookup(sales, day);
    sales[day := Sales(before.total + amount, before.orderCount + 1)]
  }

  function Sum(amounts: seq<nat>): nat
  {
    if amounts == [] then 0 else Sum(amounts[..|amounts| - 1]) + amounts[|amounts| - 1]
  }

  /** Booking `amounts` on `day`, one after the other. */
  function RecordAll(sales: map<string, Sales>, day: string, amounts: seq<nat>): map<string, Sales>
  {
    if amounts == [] then sales
    else RecordSale(RecordAll(sales, day, amounts[..|amounts| - 1]), day, amounts[|amounts| - 1])
  }

  /** One booking raises the day's total by the amount and its count by one,
      and leaves every other day as it was. */
  lemma RecordSaleEffect(sales: map<string, Sales>, day: string, amount: nat)
    ensures Lookup(RecordSale(sales, day, amount), day)
      == Sales(Lookup(sales, day).total + amount, Lookup(sales, day).orderCount + 1)
    ensures forall d :: d != day ==> Lookup(RecordSale(sales, day, amount), d) == Lookup(sales, d)
    ensures RecordSale(sales, day, amount).Keys == sales.Keys + {day}
  {
  }

  /** `k` bookings on one day add `k` to its count and the sum of the amounts
      to its total; in particular, starting from no record the day reads
      (sum of the amounts, k). Other days are untouched. */
  lemma {:induction false} RecordAllEffect(sales: map<string, Sales>, day: string, amounts: seq<nat>)
    ensures Lookup(RecordAll(sales, day, amounts), day)
      == Sales(Lookup(sales, day).total + Sum(amounts), Lookup(sales, day).orderCount + |amounts|)
    ensures day !in sales ==> Lookup(RecordAll(sales, day, amounts), day) == Sales(Sum(amounts), |amounts|)
    ensures forall d :: d != day ==> Lookup(RecordAll(sales, day, amounts), d) == Lookup(sales, d)
  {
    if amounts != [] {
      var init := amounts[..|amounts| - 1];
      RecordAllEffect(sales, day, init);
      RecordSaleEffect(RecordAll(sales, day, init), day, amounts[|amounts| - 1]);
    }
  }
}
