/**
 * The two values derived from the cart: the money total and the unit count.
 * Both are left folds over the line items, as `Array.prototype.reduce` is;
 * money is an exact `real`, so the order of the additions does not matter.
 */
module CartTotals {
  import opened Catalog
  import opened CartReducer

  function LineTotal(item: LineItem): real {
    item.product.price * (item.quantity as real)
  }

  /** `getCartTotal`: the sum of price times quantity over the items, 0 for an empty cart. */
  function CartTotal(items: seq<LineItem>): (t: real)
    ensures items == [] ==> t == 0.0
    ensures (forall i :: 0 <= i < |items| ==> items[i].product.price >= 0.0 && items[i].quantity >= 0) ==> t >= 0.0
  {
    if items == [] then 0.0
    else CartTotal(items[..|items| - 1]) + LineTotal(items[|items| - 1])
  }

  /** `getCartItemsCount`: the number of units, not of distinct products. */
  function ItemsCount(items: seq<LineItem>): (n: int)
    ensures items == [] ==> n == 0
    ensures (forall i :: 0 <= i < |items| ==> items[i].quantity >= 1) ==> n >= |items|
  {
    if items == [] then 0
    else ItemsCount(items[..|items| - 1]) + items[|items| - 1].quantity
  }

  /** How many items carry the id. */
  function CountId(items: seq<LineItem>, id: ProductId): nat {
    if items == [] then 0
    else CountId(items[..|items| - 1], id) + if items[|items| - 1].Id() == id then 1 else 0
  }

  /** The sum of the unit prices of the items that carry the id. */
  function PriceOfId(items: seq<LineItem>, id: ProductId): real {
    if items == [] then 0.0
    else PriceOfId(items[..|items| - 1], id) + if items[|items| - 1].Id() == id then items[|items| - 1].product.price else 0.0
  }

  /** Incrementing the quantity of every item with the id adds one unit and one unit price per such item. */
  lemma {:induction false} IncrementTotals(items: seq<LineItem>, id: ProductId)
    ensures ItemsCount(MapQuantityWhere(items, id, 1, true)) == ItemsCount(items) + CountId(items, id)
    ensures CartTotal(MapQuantityWhere(items, id, 1, true)) == CartTotal(items) + PriceOfId(items, id)
  {
    if items != [] {
      var n := |items| - 1;
      var m := MapQuantityWhere(items, id, 1, true);
      assert m[..n] == MapQuantityWhere(items[..n], id, 1, true);
      IncrementTotals(items[..n], id);
      var x := items[n];
      if x.Id() == id {
        assert LineTotal(m[n]) == LineTotal(x) + x.product.price by {
          assert m[n].quantity == x.quantity + 1;
          assert x.product.price * ((x.quantity + 1) as real) == x.product.price * (x.quantity as real) + x.product.price;
        }
      }
    }
  }

  /** With unique ids, an id is carried by at most one item, whose price is the price sum of that id. */
  lemma {:induction false} UniqueIdCounts(items: seq<LineItem>, id: ProductId)
    requires UniqueIds(items)
    ensures CountId(items, id) == if HasId(items, id) then 1 else 0
    ensures !HasId(items, id) ==> PriceOfId(items, id) == 0.0
    ensures forall k :: 0 <= k < |items| && items[k].Id() == id ==> PriceOfId(items, id) == items[k].product.price
  {
    if items != [] {
      var n := |items| - 1;
      var p := items[..n];
      UniqueIdCounts(p, id);
      assert HasId(p, id) ==> HasId(items, id) by {
        if HasId(p, id) {
          var i :| 0 <= i < |p| && p[i].Id() == id;
          assert items[i].Id() == id;
        }
      }
      if items[n].Id() == id {
        assert !HasId(p, id);
      } else {
        assert HasId(items, id) ==> HasId(p, id) by {
          if HasId(items, id) {
            var i :| 0 <= i < |items| && items[i].Id() == id;
            assert p[i].Id() == id;
          }
        }
        forall k | 0 <= k < |items| && items[k].Id() == id
          ensures PriceOfId(items, id) == items[k].product.price
        {
          assert p[k] == items[k];
        }
      }
    }
  }

  /**
   * With unique ids, an add raises the unit count by exactly 1 and the total
   * by one unit price: the new product's when it is new, the price stored in
   * the cart when it is already there.
   */
  lemma AddRaisesTotals(items: seq<LineItem>, p: Product)
    requires UniqueIds(items)
    ensures ItemsCount(Reduce(items, AddToCart(p))) == ItemsCount(items) + 1
    ensures !HasId(items, p.id) ==> CartTotal(Reduce(items, AddToCart(p))) == CartTotal(items) + p.price
    ensures forall k :: 0 <= k < |items| && items[k].Id() == p.id ==>
              CartTotal(Reduce(items, AddToCart(p))) == CartTotal(items) + items[k].product.price
  {
    if HasId(items, p.id) {
      assert Reduce(items, AddToCart(p)) == MapQuantityWhere(items, p.id, 1, true);
      IncrementTotals(items, p.id);
      UniqueIdCounts(items, p.id);
    } else {
      var r := items + [LineItem(p, 1)];
      assert r[..|r| - 1] == items;
    }
  }

  /** A cart emptied by CLEAR_CART totals 0 and counts 0 units. */
  lemma ClearedCartIsZero(items: seq<LineItem>)
    ensures CartTotal(Reduce(items, ClearCart)) == 0.0
    ensures ItemsCount(Reduce(items, ClearCart)) == 0
  {
  }
}
