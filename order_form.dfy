/**
 * The draft order being edited in the order form: the repeater's rows and the
 * `total` field. Each reaction is a method the caller invokes after the edit
 * it reacts to; when the admin framework fires it is not part of this model.
 */
module OrderForm {
  import opened Wrappers
  import opened OrderItems

  class Draft {
    var items: seq<Item>
    var total: Option<Money>

    /** Every row satisfies the pricing invariant. */
    ghost predicate AllPriced()
      reads this
    {
      forall i :: 0 <= i < |items| ==> Priced(items[i])
    }

    /** The `total` field agrees with the rows. */
    ghost predicate TotalSettled()
      reads this
    {
      total == Some(ItemsTotal(items))
    }

    /** An empty form: no rows and no total yet. */
    constructor ()
      ensures items == [] && total == None
      ensures AllPriced()
    {
      items := [];
      total := None;
    }

    /** The repeater adds a row holding only the default quantity. */
    method AddItem()
      modifies this
      ensures items == old(items) + [NewItem()] && total == old(total)
      ensures old(AllPriced()) ==> AllPriced()
      ensures old(TotalSettled()) ==> TotalSettled()
    {
      ItemsTotalInsertNeutral(items, |items|, NewItem());
      assert items[..|items|] + [NewItem()] + items[|items|..] == items + [NewItem()];
      items := items + [NewItem()];
    }

    /** The repeater deletes row k. */
    method RemoveItem(k: nat)
      requires k < |items|
      modifies this
      ensures items == old(items[..k] + items[k + 1..]) && total == old(total)
      ensures old(AllPriced()) ==> AllPriced()
      ensures old(Neutral(items[k]) && TotalSettled()) ==> TotalSettled()
    {
      if Neutral(items[k]) {
        ItemsTotalRemoveNeutral(items, k);
      }
      ghost var was := items;
      items := items[..k] + items[k + 1..];
      assert forall i :: 0 <= i < |items| ==> items[i] == if i < k then was[i] else was[i + 1];
    }

    /** The user picks `id` in row k's product select; the product reaction follows. */
    method SelectProduct(k: nat, id: Option<ProductId>, catalog: Catalog)
      requires k < |items|
      modifies this
      ensures items == old(items)[k := AfterProductSelected(old(items[k]).(productId := id), catalog)]
      ensures total == old(total)
      ensures old(AllPriced()) ==> AllPriced()
    {
      var row := items[k].(productId := id);
      PricedAfterProductSelected(row, catalog);
      items := items[k := AfterProductSelected(row, catalog)];
    }

    /** The user types quantity q in row k; the quantity reaction follows. */
    method ChangeQuantity(k: nat, q: Option<int>)
      requires k < |items|
      modifies this
      ensures items == old(items)[k := AfterQuantityChanged(old(items[k]).(quantity := q))]
      ensures total == old(total)
      ensures old(AllPriced()) ==> AllPriced()
    {
      var row := items[k].(quantity := q);
      PricedAfterQuantityChanged(row);
      items := items[k := AfterQuantityChanged(row)];
    }

    /** The repeater reaction: `total` becomes the sum of the rows' line totals. */
    method RecomputeTotal()
      modifies this
      ensures items == old(items)
      ensures TotalSettled()
    {
      total := Some(ItemsTotal(items));
    }
  }
}
