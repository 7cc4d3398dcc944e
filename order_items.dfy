/**
 * One row of the "Order Items" repeater on the order form, and the pure part of
 * the three `afterStateUpdated` reactions that keep its derived fields current.
 *
 * Money is an exact integer count of the smallest currency unit.
 */
module OrderItems {
  import opened Wrappers

  type ProductId = int
  type Money = int

  /** The products table as `Product::find` sees it: id to unit price. */
  type Catalog = map<ProductId, Money>

  /**
   * The state of one repeater row. Every field may be null: `product_id` until a
   * product is chosen, `price` until a known product is chosen, `total_price`
   * until a reaction sets it, `quantity` when the input is cleared.
   */
  datatype Item = Item(
    productId: Option<ProductId>,
    quantity: Option<int>,
    price: Option<Money>,
    totalPrice: Option<Money>)

  /**
   * A freshly added row: only `quantity` has a default, 1. Such a row already
   * satisfies the pricing invariant and adds nothing to the order total.
   */
  function NewItem(): (r: Item)
    ensures r.quantity == Some(1) && r.productId.None? && r.price.None?
    ensures Priced(r) && Neutral(r)
  {
    Item(None, Some(1), None, None)
  }

  /** `Product::find($state)`: the catalog price of the selected id, or null. */
  function FindPrice(catalog: Catalog, id: Option<ProductId>): (r: Option<Money>)
    ensures r.Some? <==> id.Some? && id.value in catalog
    ensures r.Some? ==> r.value == catalog[id.value]
  {
    if id.Some? && id.value in catalog then Some(catalog[id.value]) else None
  }

  /**
   * The reaction to a new `product_id` (already stored in the row). A known
   * product copies its catalog price and prices the line at that price times the
   * quantity, a null quantity counting as 1. An unknown or cleared product only
   * nulls the price: the previous line total stays as it was.
   */
  function AfterProductSelected(item: Item, catalog: Catalog): (r: Item)
    ensures r.productId == item.productId && r.quantity == item.quantity
    ensures item.productId.Some? && item.productId.value in catalog ==>
              r.price == Some(catalog[item.productId.value]) &&
              r.totalPrice == Some(catalog[item.productId.value] * item.quantity.GetOr(1))
    ensures !(item.productId.Some? && item.productId.value in catalog) ==>
              r.price == None && r.totalPrice == item.totalPrice
  {
    var qty := item.quantity.GetOr(1);
    match FindPrice(catalog, item.productId)
    case Some(p) => item.(price := Some(p), totalPrice := Some(p * qty))
    case None => item.(price := None)
  }

  /**
   * The reaction to a new `quantity` (already stored in the row): the line total
   * becomes the price times the quantity, a null price counting as 0 and, as in
   * PHP arithmetic, a null quantity counting as 0. The total is never left null.
   */
  function AfterQuantityChanged(item: Item): (r: Item)
    ensures r.productId == item.productId && r.quantity == item.quantity && r.price == item.price
    ensures r.totalPrice.Some?
    ensures item.price.None? ==> r.totalPrice == Some(0)
    ensures item.quantity.None? ==> r.totalPrice == Some(0)
    ensures item.price.Some? && item.quantity.Some? ==>
              r.totalPrice == Some(item.price.value * item.quantity.value)
  {
    var price := item.price.GetOr(0);
    item.(totalPrice := Some(price * item.quantity.GetOr(0)))
  }

  /**
   * The pricing invariant of a row: once it has both a price and a quantity,
   * its line total is their product.
   */
  predicate Priced(item: Item) {
    item.price.Some? && item.quantity.Some? ==>
      item.totalPrice == Some(item.price.value * item.quantity.value)
  }

  /**
   * What a row adds to the order total: its line total when it has one; in PHP
   * arithmetic a null line total adds 0.
   */
  function Contribution(item: Item): (r: Money)
    ensures item.totalPrice.None? ==> r == 0
    ensures item.totalPrice.Some? ==> item.totalPrice == Some(r)
  {
    item.totalPrice.GetOr(0)
  }

  /** A row that does not move the order total. */
  predicate Neutral(item: Item) {
    Contribution(item) == 0
  }

  /** No row moves the order total. */
  predicate AllNeutral(items: seq<Item>) {
    items == [] || (Neutral(items[0]) && AllNeutral(items[1..]))
  }

  /**
   * The order total: the sum of the rows' line totals, nulls counting as 0. It
   * is 0 when no row has a non-zero line total, an empty repeater included.
   */
  function ItemsTotal(items: seq<Item>): (r: Money)
    ensures AllNeutral(items) ==> r == 0
  {
    if items == [] then 0 else Contribution(items[0]) + ItemsTotal(items[1..])
  }

  /**
   * The total agrees with the left-to-right accumulation from 0 that
   * `Collection::sum` performs: the total of all rows but the last, plus the last.
   */
  lemma ItemsTotalLast(items: seq<Item>)
    requires items != []
    ensures ItemsTotal(items) == ItemsTotal(items[..|items| - 1]) + Contribution(items[|items| - 1])
  {
    var n := |items|;
    ItemsTotalAppend(items[..n - 1], [items[n - 1]]);
    assert items == items[..n - 1] + [items[n - 1]];
    assert [items[n - 1]][1..] == [];
  }

  lemma PricedAfterProductSelected(item: Item, catalog: Catalog)
    ensures Priced(AfterProductSelected(item, catalog))
  {
  }

  lemma PricedAfterQuantityChanged(item: Item)
    ensures Priced(AfterQuantityChanged(item))
  {
  }

  /** The total of two runs of rows is the sum of their totals. */
  lemma {:induction false} ItemsTotalAppend(a: seq<Item>, b: seq<Item>)
    ensures ItemsTotal(a + b) == ItemsTotal(a) + ItemsTotal(b)
  {
    if a != [] {
      ItemsTotalAppend(a[1..], b);
      assert (a + b)[1..] == a[1..] + b;
    } else {
      assert a + b == b;
    }
  }

  /** The total of a list with one row singled out. */
  lemma ItemsTotalSplit(items: seq<Item>, k: nat)
    requires k < |items|
    ensures ItemsTotal(items) == ItemsTotal(items[..k]) + Contribution(items[k]) + ItemsTotal(items[k + 1..])
  {
    assert items == items[..k] + ([items[k]] + items[k + 1..]);
    ItemsTotalAppend(items[..k], [items[k]] + items[k + 1..]);
    assert ([items[k]] + items[k + 1..])[1..] == items[k + 1..];
  }

  /** Deleting position k from a list removes one occurrence of its element. */
  lemma MultisetRemoveAt(b: seq<Item>, k: nat)
    requires k < |b|
    ensures multiset(b[..k] + b[k + 1..]) == multiset(b) - multiset{b[k]}
  {
    assert b == b[..k] + [b[k]] + b[k + 1..];
    assert multiset(b) == multiset(b[..k]) + multiset{b[k]} + multiset(b[k + 1..]);
  }

  /** Deleting row k takes exactly its contribution off the total. */
  lemma ItemsTotalRemoveAt(b: seq<Item>, k: nat)
    requires k < |b|
    ensures ItemsTotal(b) == Contribution(b[k]) + ItemsTotal(b[..k] + b[k + 1..])
  {
    ItemsTotalSplit(b, k);
    ItemsTotalAppend(b[..k], b[k + 1..]);
  }

  /** A row that occurs in a list occurs at some position. */
  lemma {:induction false} FindRow(b: seq<Item>, x: Item) returns (k: nat)
    requires x in multiset(b)
    ensures k < |b| && b[k] == x
  {
    assert x in b;
    k :| 0 <= k < |b| && b[k] == x;
  }

  /** The order total does not depend on the order of the rows. */
  lemma {:induction false} ItemsTotalPermutation(a: seq<Item>, b: seq<Item>)
    requires multiset(a) == multiset(b)
    ensures ItemsTotal(a) == ItemsTotal(b)
  {
    if a == [] {
      assert b == [] by {
        assert |b| == |multiset(b)|;
      }
    } else {
      var k := FindRow(b, a[0]);
      var rest := b[..k] + b[k + 1..];
      assert multiset(a[1..]) == multiset(rest) by {
        MultisetRemoveAt(a, 0);
        MultisetRemoveAt(b, k);
        assert a[..0] + a[1..] == a[1..];
      }
      ItemsTotalPermutation(a[1..], rest);
      ItemsTotalRemoveAt(b, k);
      assert ItemsTotal(a) == Contribution(a[0]) + ItemsTotal(a[1..]);
    }
  }

  /** Inserting a row with a null or zero line total anywhere leaves the total as it was. */
  lemma ItemsTotalInsertNeutral(items: seq<Item>, k: nat, item: Item)
    requires k <= |items| && Neutral(item)
    ensures ItemsTotal(items[..k] + [item] + items[k..]) == ItemsTotal(items)
  {
    var grown := items[..k] + [item] + items[k..];
    ItemsTotalSplit(grown, k);
    assert grown[..k] == items[..k] && grown[k] == item && grown[k + 1..] == items[k..];
    ItemsTotalAppend(items[..k], items[k..]);
    assert items == items[..k] + items[k..];
  }

  /** Removing a row with a null or zero line total leaves the total as it was. */
  lemma ItemsTotalRemoveNeutral(items: seq<Item>, k: nat)
    requires k < |items| && Neutral(items[k])
    ensures ItemsTotal(items[..k] + items[k + 1..]) == ItemsTotal(items)
  {
    ItemsTotalRemoveAt(items, k);
  }

  /** Replacing one row changes the total by exactly the change in its line total. */
  lemma ItemsTotalUpdate(items: seq<Item>, k: nat, item: Item)
    requires k < |items|
    ensures ItemsTotal(items[k := item]) == ItemsTotal(items) - Contribution(items[k]) + Contribution(item)
  {
    var updated := items[k := item];
    ItemsTotalSplit(items, k);
    ItemsTotalSplit(updated, k);
    assert updated[..k] == items[..k] && updated[k + 1..] == items[k + 1..];
  }
}

/** Worked examples of the reactions on a catalog holding product 1 at 1000 units. */
module OrderItemsExamples {
  import opened Wrappers
  import opened OrderItems

  lemma PricingWalkthrough()
    ensures var catalog := map[1 := 1000];
            var selected := AfterProductSelected(NewItem().(productId := Some(1)), catalog);
            var tripled := AfterQuantityChanged(selected.(quantity := Some(3)));
            var unknown := AfterProductSelected(NewItem().(productId := Some(2)), catalog);
            && selected.price == Some(1000) && selected.totalPrice == Some(1000)
            && tripled.totalPrice == Some(3000)
            && ItemsTotal([tripled, NewItem()]) == 3000
            && unknown.price == None
            && AfterQuantityChanged(unknown).totalPrice == Some(0)
  {
    var tripled := AfterQuantityChanged(AfterProductSelected(NewItem().(productId := Some(1)), map[1 := 1000]).(quantity := Some(3)));
    assert [tripled, NewItem()][1..] == [NewItem()];
    assert ItemsTotal([NewItem()]) == 0 by {
      assert [NewItem()][1..] == [];
    }
  }
}
