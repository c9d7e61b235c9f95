/** The customer's cart: a list of entries `{item_id, name, price, qty}` kept in
    the session, changed in place by the "Order", "➖" and "➕" buttons, totalled
    in the sidebar and serialised into an order when it is submitted. */
module Cart {
  import opened Prices
  import opened Menu

  datatype CartEntry = CartEntry(itemId: string, name: string, price: string, qty: nat)

  /** What the three buttons keep true: no item id twice, no quantity below 1. */
  predicate WellFormed(c: seq<CartEntry>)
  {
    && (forall i, j :: 0 <= i < j < |c| ==> c[i].itemId != c[j].itemId)
    && (forall i :: 0 <= i < |c| ==> c[i].qty >= 1)
  }

  // ---------------------------------------------------------------------------
  // Sums over the entries
  // ---------------------------------------------------------------------------

  function SumBy(c: seq<CartEntry>, w: CartEntry -> nat): nat
  {
    if c == [] then 0 else SumBy(c[..|c| - 1], w) + w(c[|c| - 1])
  }

  lemma {:induction false} SumByConcat(a: seq<CartEntry>, b: seq<CartEntry>, w: CartEntry -> nat)
    ensures SumBy(a + b, w) == SumBy(a, w) + SumBy(b, w)
  {
    if b == [] {
      assert a + b == a;
    } else {
      assert (a + b)[..|a + b| - 1] == a + b[..|b| - 1];
      SumByConcat(a, b[..|b| - 1], w);
    }
  }

  lemma SumBySplit(c: seq<CartEntry>, k: nat, w: CartEntry -> nat)
    requires k < |c|
    ensures SumBy(c, w) == SumBy(c[..k], w) + w(c[k]) + SumBy(c[k + 1..], w)
  {
    assert c == c[..k] + [c[k]] + c[k + 1..];
    SumByConcat(c[..k] + [c[k]], c[k + 1..], w);
    SumByConcat(c[..k], [c[k]], w);
  }

  lemma SumByUpdate(c: seq<CartEntry>, k: nat, e: CartEntry, w: CartEntry -> nat)
    requires k < |c|
    ensures SumBy(c[k := e], w) == SumBy(c, w) - w(c[k]) + w(e)
  {
    SumBySplit(c, k, w);
    SumBySplit(c[k := e], k, w);
    assert c[k := e][..k] == c[..k] && c[k := e][k + 1..] == c[k + 1..];
  }

  lemma SumByRemove(c: seq<CartEntry>, k: nat, w: CartEntry -> nat)
    requires k < |c|
    ensures SumBy(c[..k] + c[k + 1..], w) == SumBy(c, w) - w(c[k])
  {
    SumBySplit(c, k, w);
    SumByConcat(c[..k], c[k + 1..], w);
  }

  /** `parse_price(item['price']) * item['qty']` */
  function LineTotal(e: CartEntry): nat { ParsePrice(e.price) * e.qty }

  /** One more unit of an entry adds one unit price to its line. */
  lemma LineTotalStep(e: CartEntry)
    ensures LineTotal(e.(qty := e.qty + 1)) == LineTotal(e) + ParsePrice(e.price)
  {
    var p := ParsePrice(e.price);
    assert p * (e.qty + 1) == p * e.qty + p;
  }

  /** The sidebar total: the sum of every entry's parsed price times its quantity. */
  function CartTotal(c: seq<CartEntry>): nat { SumBy(c, LineTotal) }

  /** The units of item `id` an entry stands for. */
  function UnitsOf(id: string): CartEntry -> nat
  {
    (e: CartEntry) => if e.itemId == id then e.qty else 0
  }

  /** How many of item `id` the cart holds, over all its entries. */
  function Count(c: seq<CartEntry>, id: string): nat
  {
    SumBy(c, UnitsOf(id))
  }

  /** In a well-formed cart the count of an item is its entry's quantity. */
  lemma CountOfEntry(c: seq<CartEntry>, k: nat)
    requires WellFormed(c) && k < |c|
    ensures Count(c, c[k].itemId) == c[k].qty
  {
    var id := c[k].itemId;
    var w := UnitsOf(id);
    SumBySplit(c, k, w);
    NoCount(c[..k], id);
    NoCount(c[k + 1..], id);
  }

  lemma {:induction false} NoCount(c: seq<CartEntry>, id: string)
    requires forall i :: 0 <= i < |c| ==> c[i].itemId != id
    ensures Count(c, id) == 0
  {
    if c != [] {
      NoCount(c[..|c| - 1], id);
    }
  }

  // ---------------------------------------------------------------------------
  // The three buttons, as functions of the cart
  // ---------------------------------------------------------------------------

  /** Position of the first entry for `id`, or `|c|` when there is none. */
  function Find(c: seq<CartEntry>, id: string): (k: nat)
    ensures k <= |c|
    ensures k < |c| ==> c[k].itemId == id
    ensures forall j :: 0 <= j < k ==> c[j].itemId != id
  {
    if c == [] then 0 else if c[0].itemId == id then 0 else 1 + Find(c[1..], id)
  }

  /** "Order" on a menu item. */
  function AddItem(c: seq<CartEntry>, item: MenuItem): seq<CartEntry>
  {
    var k := Find(c, item.itemId);
    if k < |c| then c[k := c[k].(qty := c[k].qty + 1)]
    else c + [CartEntry(item.itemId, item.name, item.price, 1)]
  }

  /** "➖" on entry `i`. */
  function Decrement(c: seq<CartEntry>, i: nat): seq<CartEntry>
    requires i < |c|
  {
    if c[i].qty > 1 then c[i := c[i].(qty := c[i].qty - 1)] else c[..i] + c[i + 1..]
  }

  /** "➕" on entry `i`. */
  function Increment(c: seq<CartEntry>, i: nat): seq<CartEntry>
    requires i < |c|
  {
    c[i := c[i].(qty := c[i].qty + 1)]
  }

  /** "Order" keeps the cart well-formed and grows it by at most one entry;
      an entry already present for the item keeps its place, every other
      entry is unchanged, and an absent item is appended with quantity 1. */
  lemma AddItemShape(c: seq<CartEntry>, item: MenuItem)
    requires WellFormed(c)
    ensures var r := AddItem(c, item);
      && WellFormed(r)
      && |c| <= |r| <= |c| + 1
      && (forall j :: 0 <= j < |c| && c[j].itemId != item.itemId ==> r[j] == c[j])
      && (|r| == |c| + 1 <==> forall j :: 0 <= j < |c| ==> c[j].itemId != item.itemId)
      && (|r| == |c| + 1 ==> r[|c|] == CartEntry(item.itemId, item.name, item.price, 1))
      && (|r| == |c| ==> var k := Find(c, item.itemId);
            k < |c| && r[k] == c[k].(qty := c[k].qty + 1))
  {
  }

  /** "Order" adds exactly one of the item and nothing of any other item. */
  lemma AddItemCount(c: seq<CartEntry>, item: MenuItem, id: string)
    ensures Count(AddItem(c, item), id) == Count(c, id) + (if id == item.itemId then 1 else 0)
  {
    var k := Find(c, item.itemId);
    var w := UnitsOf(id);
    if k < |c| {
      SumByUpdate(c, k, c[k].(qty := c[k].qty + 1), w);
    } else {
      SumByConcat(c, [CartEntry(item.itemId, item.name, item.price, 1)], w);
    }
  }

  /** "Order" raises the total by one unit price: that of the entry it bumped
      (its price as it was when first ordered) or the menu price when appended. */
  lemma AddItemTotal(c: seq<CartEntry>, item: MenuItem)
    ensures Find(c, item.itemId) < |AddItem(c, item)|
    ensures CartTotal(AddItem(c, item)) == CartTotal(c) + ParsePrice(AddItem(c, item)[Find(c, item.itemId)].price)
  {
    var k := Find(c, item.itemId);
    var r := AddItem(c, item);
    if k < |c| {
      var e := c[k].(qty := c[k].qty + 1);
      assert r == c[k := e];
      SumByUpdate(c, k, e, LineTotal);
      LineTotalStep(c[k]);
    } else {
      var e := CartEntry(item.itemId, item.name, item.price, 1);
      assert r == c + [e];
      SumByConcat(c, [e], LineTotal);
      assert SumBy([e], LineTotal) == LineTotal(e) by {
        assert [e][..0] == [];
      }
      assert LineTotal(e) == ParsePrice(item.price);
    }
  }

  /** "➖" keeps the cart well-formed: the entry loses one unit or, at one,
      disappears; every other entry keeps its contents and relative order. */
  lemma DecrementShape(c: seq<CartEntry>, i: nat)
    requires WellFormed(c) && i < |c|
    ensures var r := Decrement(c, i);
      var gone := if c[i].qty > 1 then 0 else 1;
      && WellFormed(r)
      && |r| == |c| - gone
      && (gone == 0 ==> r[i] == c[i].(qty := c[i].qty - 1))
      && (forall j :: 0 <= j < |c| && j != i ==> r[if j < i then j else j - gone] == c[j])
  {
  }

  /** "➖" removes exactly one unit of the entry's item and one unit price from the total. */
  lemma DecrementEffect(c: seq<CartEntry>, i: nat, id: string)
    requires i < |c| && c[i].qty >= 1
    ensures Count(Decrement(c, i), id) == Count(c, id) - (if id == c[i].itemId then 1 else 0)
    ensures CartTotal(Decrement(c, i)) == CartTotal(c) - ParsePrice(c[i].price)
  {
    var w := UnitsOf(id);
    if c[i].qty > 1 {
      var e := c[i].(qty := c[i].qty - 1);
      SumByUpdate(c, i, e, w);
      SumByUpdate(c, i, e, LineTotal);
      LineTotalStep(e);
      assert e.(qty := e.qty + 1) == c[i];
    } else {
      SumByRemove(c, i, w);
      SumByRemove(c, i, LineTotal);
    }
  }

  /** "➕" changes only entry `i`, by one unit. */
  lemma IncrementEffect(c: seq<CartEntry>, i: nat, id: string)
    requires i < |c|
    ensures WellFormed(c) ==> WellFormed(Increment(c, i))
    ensures |Increment(c, i)| == |c| && Increment(c, i)[i] == c[i].(qty := c[i].qty + 1)
    ensures forall j :: 0 <= j < |c| && j != i ==> Increment(c, i)[j] == c[j]
    ensures Count(Increment(c, i), id) == Count(c, id) + (if id == c[i].itemId then 1 else 0)
    ensures CartTotal(Increment(c, i)) == CartTotal(c) + ParsePrice(c[i].price)
  {
    var w := UnitsOf(id);
    SumByUpdate(c, i, c[i].(qty := c[i].qty + 1), w);
    SumByUpdate(c, i, c[i].(qty := c[i].qty + 1), LineTotal);
    LineTotalStep(c[i]);
  }

  // ---------------------------------------------------------------------------
  // The submitted items string
  // ---------------------------------------------------------------------------

  /** `f"{item['name']} x{item['qty']}"` */
  function EntryText(e: CartEntry): string
  {
    e.name + " x" + Decimal(e.qty)
  }

  /** `sep.join(parts)` */
  function Join(parts: seq<string>, sep: string): string
  {
    if |parts| == 0 then ""
    else if |parts| == 1 then parts[0]
    else parts[0] + sep + Join(parts[1..], sep)
  }

  function EntryTexts(c: seq<CartEntry>): (r: seq<string>)
    ensures |r| == |c| && forall i :: 0 <= i < |c| ==> r[i] == EntryText(c[i])
  {
    if c == [] then [] else [EntryText(c[0])] + EntryTexts(c[1..])
  }

  /** The order's `items` field. */
  function ItemsText(c: seq<CartEntry>): string
  {
    Join(EntryTexts(c), " | ")
  }

  lemma {:induction false} JoinConcat(a: seq<string>, b: seq<string>, sep: string)
    requires a != [] && b != []
    ensures Join(a + b, sep) == Join(a, sep) + sep + Join(b, sep)
  {
    if |a| == 1 {
      assert (a + b)[1..] == b;
    } else {
      assert (a + b)[1..] == a[1..] + b;
      JoinConcat(a[1..], b, sep);
    }
  }

  /** The items string of a cart is the items strings of its two parts joined
      by " | ", so the entries appear in cart order, one text per entry. */
  lemma ItemsTextConcat(c: seq<CartEntry>, d: seq<CartEntry>)
    requires c != [] && d != []
    ensures ItemsText(c + d) == ItemsText(c) + " | " + ItemsText(d)
  {
    assert EntryTexts(c + d) == EntryTexts(c) + EntryTexts(d);
    JoinConcat(EntryTexts(c), EntryTexts(d), " | ");
  }

  /** Only the empty cart has an empty items string; one entry gives its own text. */
  lemma ItemsTextShape(c: seq<CartEntry>)
    ensures ItemsText(c) == "" <==> c == []
    ensures |c| == 1 ==> ItemsText(c) == EntryText(c[0])
  {
    if c != [] {
      JoinFirst(EntryTexts(c), " | ");
    }
  }

  lemma JoinFirst(parts: seq<string>, sep: string)
    requires parts != []
    ensures |Join(parts, sep)| >= |parts[0]|
  {
  }

  // ---------------------------------------------------------------------------
  // The cart held in the session
  // ---------------------------------------------------------------------------

  class CustomerCart {
    var entries: seq<CartEntry>

    ghost predicate Valid()
      reads this
    {
      WellFormed(entries)
    }

    constructor ()
      ensures Valid() && entries == []
    {
      entries := [];
    }

    /** "Order": bump the entry for the item if there is one, else append it. */
    method Order(item: MenuItem)
      requires Valid()
      modifies this
      ensures Valid()
      ensures entries == AddItem(old(entries), item)
    {
      AddItemShape(entries, item);
      var k := 0;
      var found := false;
      while k < |entries| && !found
        invariant k <= |entries|
        invariant forall j :: 0 <= j < k ==> entries[j].itemId != item.itemId
        invariant found ==> k < |entries| && entries[k].itemId == item.itemId
        invariant entries == old(entries)
        decreases |entries| - k, !found
      {
        if entries[k].itemId == item.itemId {
          found := true;
        } else {
          k := k + 1;
        }
      }
      if found {
        entries := entries[k := entries[k].(qty := entries[k].qty + 1)];
      } else {
        entries := entries + [CartEntry(item.itemId, item.name, item.price, 1)];
      }
    }

    /** "➖" on entry `i` of the sidebar list. */
    method Minus(i: nat)
      requires Valid() && i < |entries|
      modifies this
      ensures Valid()
      ensures entries == Decrement(old(entries), i)
    {
      DecrementShape(entries, i);
      if entries[i].qty > 1 {
        entries := entries[i := entries[i].(qty := entries[i].qty - 1)];
      } else {
        entries := entries[..i] + entries[i + 1..];
      }
    }

    /** "➕" on entry `i` of the sidebar list. */
    method Plus(i: nat)
      requires Valid() && i < |entries|
      modifies this
      ensures Valid()
      ensures entries == Increment(old(entries), i)
    {
      IncrementEffect(entries, i, entries[i].itemId);
      entries := entries[i := entries[i].(qty := entries[i].qty + 1)];
    }

    /** The sidebar's running total. */
    method Total() returns (total: nat)
      ensures total == CartTotal(entries)
    {
      total := 0;
      for i := 0 to |entries|
        invariant total == CartTotal(entries[..i])
      {
        assert entries[..i + 1][..i] == entries[..i];
        total := total + ParsePrice(entries[i].price) * entries[i].qty;
      }
      assert entries[..|entries|] == entries;
    }

    /** "🗑️ Cart ရှင်းမည်", and what submission does after saving the order. */
    method Clear()
      modifies this
      ensures Valid() && entries == []
    {
      entries := [];
    }
  }
}
