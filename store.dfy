/** One store's Firestore data, held in memory, and the writes the pages make
    on it. Document ids, today's date and timestamps are given by the caller. */
module StoreState {
  import opened Prices
  import opened Menu
  import opened Cart
  import opened DailySales
  import opened Orders

  /** No two category documents carry the same name. */
  predicate UniqueNames(categories: map<string, string>)
  {
    forall a, b | a in categories && b in categories && a != b :: categories[a] != categories[b]
  }

  /** What the category delete button did. */
  datatype Removal = InUse(itemCount: nat) | Removed(id: string) | NoSuchCategory

  /** A confirmed order carries the cart's items text and total, so
      completing it books exactly the cart total on the day. */
  lemma SubmittedOrderBooksCartTotal(l: Ledger, c: seq<CartEntry>, orderId: string, tableNo: string,
                                     timestamp: string, today: string)
    ensures var placed := Submit(l.orders, orderId, tableNo, ItemsText(c), CartTotal(c), timestamp);
      var r := Complete(Ledger(placed, l.sales), orderId, today);
      && r.sales == RecordSale(l.sales, today, CartTotal(c))
      && r.orders[orderId].status == Completed
      && r.orders[orderId].items == ItemsText(c)
  {
    RecordSaleEffect(l.sales, today, CartTotal(c));
  }

  class Store {
    /** category document id -> `category_name` */
    var categories: map<string, string>
    /** the `menu_items` collection, as listed */
    var menuItems: seq<MenuItem>
    /** order document id -> order */
    var orders: map<string, Order>
    /** day ("YYYY-MM-DD") -> that day's sales record */
    var sales: map<string, Sales>

    constructor (categories: map<string, string>, menuItems: seq<MenuItem>,
                 orders: map<string, Order>, sales: map<string, Sales>)
      ensures this.categories == categories && this.menuItems == menuItems
      ensures this.orders == orders && this.sales == sales
    {
      this.categories := categories;
      this.menuItems := menuItems;
      this.orders := orders;
      this.sales := sales;
    }

    // -------------------------------------------------------------------------
    // Categories
    // -------------------------------------------------------------------------

    /** The category "add" button: `docId` is the fresh id Firestore's `add`
        picks. Only a new, non-blank, stripped name is stored, so names stay
        unique. */
    method AddCategory(typed: string, docId: string) returns (a: Admission)
      requires docId !in categories
      modifies this
      ensures a == AdmitCategory(old(categories).Values, typed)
      ensures categories == if a.Added? then old(categories)[docId := a.name] else old(categories)
      ensures UniqueNames(old(categories)) ==> UniqueNames(categories)
      ensures menuItems == old(menuItems) && orders == old(orders) && sales == old(sales)
    {
      a := AdmitCategory(categories.Values, typed);
      if a.Added? {
        categories := categories[docId := a.name];
      }
    }

    /** The category delete button: refused, with the number of items, while
        some menu item is filed under the name; otherwise a document carrying
        the name is deleted. */
    method DeleteCategory(name: string) returns (outcome: Removal)
      modifies this
      ensures outcome.InUse? <==> exists x :: x in old(menuItems) && x.category == name
      ensures outcome.InUse? ==> outcome.itemCount == |ItemsIn(old(menuItems), name)|
      ensures outcome.Removed? ==> && outcome.id in old(categories) && old(categories)[outcome.id] == name
                                   && categories == old(categories) - {outcome.id}
      ensures !outcome.Removed? ==> categories == old(categories)
      ensures outcome.NoSuchCategory? ==> name !in old(categories).Values
      ensures !outcome.InUse? && UniqueNames(old(categories)) ==> name !in categories.Values
      ensures menuItems == old(menuItems) && orders == old(orders) && sales == old(sales)
    {
      var using := ItemsIn(menuItems, name);
      if |using| > 0 {
        assert using[0] in menuItems;
        return InUse(|using|);
      }
      if name in categories.Values {
        var id :| id in categories && categories[id] == name;
        categories := categories - {id};
        outcome := Removed(id);
      } else {
        outcome := NoSuchCategory;
      }
    }

    // -------------------------------------------------------------------------
    // Orders collection
    // -------------------------------------------------------------------------

    /** `save_order` */
    method SaveOrder(orderId: string, tableNo: string, items: string, total: nat, timestamp: string)
      returns (id: string)
      modifies this
      ensures id == orderId
      ensures orders == Submit(old(orders), orderId, tableNo, items, total, timestamp)
      ensures categories == old(categories) && menuItems == old(menuItems) && sales == old(sales)
    {
      orders := orders[orderId := Order(tableNo, items, total, Pending, timestamp)];
      id := orderId;
    }

    /** `update_order_status`: Firestore's `update` fails on a missing document. */
    method UpdateOrderStatus(orderId: string, status: Status) returns (ok: bool)
      modifies this
      ensures ok <==> orderId in old(orders)
      ensures ok ==> orders == old(orders)[orderId := old(orders)[orderId].(status := status)]
      ensures !ok ==> orders == old(orders)
      ensures categories == old(categories) && menuItems == old(menuItems) && sales == old(sales)
    {
      ok := orderId in orders;
      if ok {
        orders := orders[orderId := orders[orderId].(status := status)];
      }
    }

    /** `delete_order`: deleting a missing document is a no-op. */
    method DeleteOrder(orderId: string)
      modifies this
      ensures orders == old(orders) - {orderId}
      ensures categories == old(categories) && menuItems == old(menuItems) && sales == old(sales)
    {
      orders := orders - {orderId};
    }

    // -------------------------------------------------------------------------
    // Daily sales
    // -------------------------------------------------------------------------

    /** `add_to_daily_sales`: read the day's record, then update it or create it. */
    method AddToDailySales(today: string, amount: nat)
      modifies this
      ensures sales == RecordSale(old(sales), today, amount)
      ensures categories == old(categories) && menuItems == old(menuItems) && orders == old(orders)
    {
      if today in sales {
        var current := sales[today];
        sales := sales[today := Sales(current.total + amount, current.orderCount + 1)];
      } else {
        sales := sales[today := Sales(amount, 1)];
      }
    }

    /** `get_daily_sales` */
    method GetDailySales(today: string) returns (total: nat, orderCount: nat)
      ensures Sales(total, orderCount) == Lookup(sales, today)
      ensures today !in sales ==> total == 0 && orderCount == 0
    {
      if today in sales {
        total, orderCount := sales[today].total, sales[today].orderCount;
      } else {
        total, orderCount := 0, 0;
      }
    }

    // -------------------------------------------------------------------------
    // Customer page and counter dashboard
    // -------------------------------------------------------------------------

    /** "Order ပို့မည်": without a table number nothing happens; otherwise the
        cart is saved as one pending order and then emptied. The button is
        drawn only while the cart holds something. */
    method SubmitOrder(cart: CustomerCart, tableNo: string, orderId: string, timestamp: string)
      returns (placed: bool)
      requires cart.Valid() && cart.entries != []
      modifies this, cart
      ensures placed <==> tableNo != []
      ensures placed ==> && orders == Submit(old(orders), orderId, tableNo, ItemsText(old(cart.entries)),
                                            CartTotal(old(cart.entries)), timestamp)
                         && cart.Valid() && cart.entries == []
      ensures !placed ==> orders == old(orders) && cart.entries == old(cart.entries)
      ensures categories == old(categories) && menuItems == old(menuItems) && sales == old(sales)
    {
      if tableNo == [] {
        return false;
      }
      var total := cart.Total();
      var items := ItemsText(cart.entries);
      var id := SaveOrder(orderId, tableNo, items, total, timestamp);
      cart.Clear();
      placed := true;
    }

    /** The "Preparing" button. */
    method MarkPreparing(orderId: string)
      modifies this
      ensures orders == StartPreparing(old(orders), orderId)
      ensures categories == old(categories) && menuItems == old(menuItems) && sales == old(sales)
    {
      if orderId in orders && orders[orderId].status == Pending {
        var ok := UpdateOrderStatus(orderId, Preparing);
      }
    }

    /** The "Complete" button: the sale is booked first, then the status is set. */
    method CompleteOrder(orderId: string, today: string)
      modifies this
      ensures Ledger(orders, sales) == Complete(Ledger(old(orders), old(sales)), orderId, today)
      ensures categories == old(categories) && menuItems == old(menuItems)
    {
      if orderId in orders && IsActive(orders[orderId].status) {
        AddToDailySales(today, orders[orderId].total);
        var ok := UpdateOrderStatus(orderId, Completed);
      }
    }

    /** The confirmed "clear history" button: every completed order of the
        dashboard listing is deleted, one after the other. */
    method ClearOrderHistory(listing: seq<Listed>)
      requires Lists(listing, orders)
      modifies this
      ensures orders == ClearHistory(old(orders))
      ensures categories == old(categories) && menuItems == old(menuItems) && sales == old(sales)
    {
      var completed := Select(listing, HasStatus(Completed));
      ListedIds(listing, orders);
      for i := 0 to |completed|
        invariant orders == old(orders) - IdsOf(completed[..i])
        invariant categories == old(categories) && menuItems == old(menuItems) && sales == old(sales)
      {
        assert IdsOf(completed[..i + 1]) == IdsOf(completed[..i]) + {completed[i].orderId} by {
          assert completed[..i + 1] == completed[..i] + [completed[i]];
        }
        DeleteOrder(completed[i].orderId);
      }
      assert completed[..|completed|] == completed;
      assert orders == ClearHistory(old(orders));
    }
  }
}
