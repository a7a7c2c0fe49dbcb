/**
 * The cart provider: the single cart instance of the application, holding the
 * line items, a flag telling whether the saved cart has been read back, and
 * the "cart" record of the browser's local storage.
 */
module CartEngine {
  import opened Catalog
  import opened CartReducer
  import opened CartTotals

  /**
   * The "cart" record of local storage as the provider reads it: absent (or
   * the empty string), present but not parseable as JSON, or the parsed list
   * of line items. JSON text itself is not modelled.
   */
  datatype Record = Absent | Unparseable | Saved(items: seq<LineItem>)

  class CartProvider {
    var items: seq<LineItem>
    var hydrated: bool
    var storage: Record

    /** Once the saved cart has been read, the record always mirrors the items. */
    ghost predicate Valid()
      reads this
    {
      hydrated ==> storage == Saved(items)
    }

    /** The provider as first rendered: an empty cart, writes suppressed, storage as found. */
    constructor (found: Record)
      ensures Valid()
      ensures items == [] && !hydrated && storage == found
    {
      items := [];
      hydrated := false;
      storage := found;
    }

    /**
     * The persistence effect, run whenever the items or the flag change: it
     * writes the items to the "cart" record, but only once hydrated.
     */
    method Persist()
      modifies this
      ensures items == old(items) && hydrated == old(hydrated)
      ensures storage == if hydrated then Saved(items) else old(storage)
      ensures Valid()
    {
      if hydrated {
        storage := Saved(items);
      }
    }

    /**
     * The hydration effect, run once after the first render: it sets the flag,
     * loads a parsed record with LOAD_CART, and leaves the items as they were
     * when the record is absent or does not parse. The persistence effect then
     * writes the items back, replacing an unparseable record.
     */
    method Hydrate()
      modifies this
      ensures hydrated
      ensures items == if old(storage).Saved? then old(storage).items else old(items)
      ensures storage == Saved(items)
      ensures Valid()
    {
      hydrated := true;
      if storage.Saved? {
        items := Reduce(items, LoadCart(storage.items));
      }
      Persist();
    }

    /** `dispatch`: apply the reducer, then the persistence effect. */
    method Dispatch(action: Action)
      requires Valid()
      modifies this
      ensures items == Reduce(old(items), action) && hydrated == old(hydrated)
      ensures storage == if hydrated then Saved(items) else old(storage)
      ensures Valid()
    {
      items := Reduce(items, action);
      Persist();
    }

    /** One call of the public interface; it keeps ids unique and quantities at least 1. */
    method Perform(cmd: Command)
      requires Valid()
      modifies this
      ensures items == Apply(old(items), cmd) && hydrated == old(hydrated)
      ensures storage == if hydrated then Saved(items) else old(storage)
      ensures WellFormed(old(items)) ==> WellFormed(items)
      ensures Valid()
    {
      if WellFormed(items) {
        ApplyKeepsWellFormed(items, cmd);
      }
      Dispatch(ActionOf(cmd));
    }

    /** `addToCart`: one more unit of the product. */
    method AddToCart(p: Product)
      requires Valid()
      modifies this
      ensures items == Reduce(old(items), CartReducer.AddToCart(p)) && hydrated == old(hydrated)
      ensures storage == if hydrated then Saved(items) else old(storage)
      ensures WellFormed(old(items)) ==> WellFormed(items)
      ensures UniqueIds(old(items)) ==> ItemsCount(items) == ItemsCount(old(items)) + 1
      ensures Valid()
    {
      if UniqueIds(items) {
        AddRaisesTotals(items, p);
      }
      Perform(Add(p));
    }

    /** `removeFromCart`: drop the product's line item. */
    method RemoveFromCart(id: ProductId)
      requires Valid()
      modifies this
      ensures items == Reduce(old(items), CartReducer.RemoveFromCart(id)) && hydrated == old(hydrated)
      ensures storage == if hydrated then Saved(items) else old(storage)
      ensures WellFormed(old(items)) ==> WellFormed(items)
      ensures !HasId(items, id)
      ensures Valid()
    {
      RemoveDropsEveryMatch(items, id);
      Perform(Remove(id));
    }

    /** `updateQuantity`: a quantity of zero or less removes the item. */
    method UpdateQuantity(id: ProductId, quantity: int)
      requires Valid()
      modifies this
      ensures items == Apply(old(items), SetQuantity(id, quantity)) && hydrated == old(hydrated)
      ensures quantity <= 0 ==> items == Reduce(old(items), CartReducer.RemoveFromCart(id))
      ensures storage == if hydrated then Saved(items) else old(storage)
      ensures WellFormed(old(items)) ==> WellFormed(items)
      ensures Valid()
    {
      Perform(SetQuantity(id, quantity));
    }

    /** `clearCart`: empty the cart. */
    method ClearCart()
      requires Valid()
      modifies this
      ensures items == [] && hydrated == old(hydrated)
      ensures storage == if hydrated then Saved([]) else old(storage)
      ensures Valid()
    {
      Perform(Clear);
    }
  }

  /**
   * A restart: a new provider over the record a hydrated provider left behind
   * reads back exactly the same items.
   */
  method Restart(previous: CartProvider) returns (next: CartProvider)
    requires previous.Valid() && previous.hydrated
    ensures fresh(next) && next.Valid() && next.hydrated
    ensures next.items == previous.items && next.storage == previous.storage
  {
    next := new CartProvider(previous.storage);
    next.Hydrate();
  }

  /** A malformed record leaves the cart empty, still sets the flag, and is replaced by an empty list. */
  method StartWithUnparseableRecord() returns (cart: CartProvider)
    ensures fresh(cart) && cart.Valid()
    ensures cart.hydrated && cart.items == [] && cart.storage == Saved([])
  {
    cart := new CartProvider(Unparseable);
    cart.Hydrate();
  }

  /** A client: scenarios the interface promises, checked against the contracts alone. */
  method ClientScenarios(p: Product, q: Product)
    requires p.id != q.id
  {
    // A saved record is loaded as it is, and nothing was written before.
    var saved := [LineItem(q, 4)];
    var cart := new CartProvider(Saved(saved));
    cart.AddToCart(p);
    assert cart.storage == Saved(saved);
    cart.Hydrate();
    assert cart.items == saved && ItemsCount(cart.items) == 4;

    // Adding twice gives one line item with quantity 2.
    cart.ClearCart();
    cart.AddToCart(p);
    cart.AddToCart(p);
    AddTwiceGivesQuantityTwo(p);
    assert cart.items == [LineItem(p, 2)];
    assert cart.storage == Saved(cart.items);

    // Setting the quantity to 0 removes the item.
    cart.UpdateQuantity(p.id, 0);
    RemoveDropsEveryMatch([LineItem(p, 2)], p.id);
    assert cart.items == [];
  }
}
