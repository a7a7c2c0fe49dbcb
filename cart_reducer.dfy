/**
 * The cart reducer: a tagged dispatch over five actions, each building a new
 * list of line items from the old one without mutating it, and the public
 * operations that choose which action to dispatch.
 */
module CartReducer {
  import opened Options
  import opened Seqs
  import opened Catalog

  /** One product held in the cart: the catalog record as first added, and a unit count. */
  datatype LineItem = LineItem(product: Product, quantity: int) {
    function Id(): ProductId { product.id }
  }

  /** The actions the reducer understands, plus any other tag, which it ignores. */
  datatype Action =
    | AddToCart(item: Product)
    | RemoveFromCart(id: ProductId)
    | UpdateQuantity(id: ProductId, quantity: int)
    | ClearCart
    | LoadCart(payload: seq<LineItem>)
    | Unrecognised(tag: string)

  predicate HasId(items: seq<LineItem>, id: ProductId) {
    exists i :: 0 <= i < |items| && items[i].Id() == id
  }

  /** No two line items share a product id. */
  predicate UniqueIds(items: seq<LineItem>) {
    forall i, j :: 0 <= i < j < |items| ==> items[i].Id() != items[j].Id()
  }

  /** What the public operations keep: unique ids and every quantity at least 1. */
  predicate WellFormed(items: seq<LineItem>) {
    UniqueIds(items) && forall i :: 0 <= i < |items| ==> items[i].quantity >= 1
  }

  /** `items.find(item => item.id === id)`. */
  function Find(items: seq<LineItem>, id: ProductId): (r: Option<LineItem>)
    ensures r.Some? <==> HasId(items, id)
    ensures r.Some? ==> r.value in items && r.value.Id() == id
    ensures r.Some? ==> exists k :: 0 <= k < |items| && items[k] == r.value &&
                          forall j :: 0 <= j < k ==> items[j].Id() != id
  {
    if items == [] then None
    else if items[0].Id() == id then Some(items[0])
    else
      var r := Find(items[1..], id);
      assert HasId(items[1..], id) <==> HasId(items, id) by {
        if HasId(items, id) {
          var i :| 0 <= i < |items| && items[i].Id() == id;
          assert items[1..][i - 1].Id() == id;
        }
        if HasId(items[1..], id) {
          var i :| 0 <= i < |items[1..]| && items[1..][i].Id() == id;
          assert items[i + 1].Id() == id;
        }
      }
      if r.Some? then
        assert exists k :: 0 <= k < |items| && items[k] == r.value &&
                 forall j :: 0 <= j < k ==> items[j].Id() != id by {
          var k :| 0 <= k < |items[1..]| && items[1..][k] == r.value &&
                   forall j :: 0 <= j < k ==> items[1..][j].Id() != id;
          assert items[k + 1] == r.value;
          forall j | 0 <= j < k + 1 ensures items[j].Id() != id {
            if j > 0 { assert items[j] == items[1..][j - 1]; }
          }
        }
        r
      else r
  }

  /** `items.map(item => item.id === id ? {...item, quantity: f(item.quantity)} : item)`. */
  function MapQuantityWhere(items: seq<LineItem>, id: ProductId, q: int, add: bool): (r: seq<LineItem>)
    ensures |r| == |items|
    ensures forall i :: 0 <= i < |items| ==> r[i].product == items[i].product
    ensures forall i :: 0 <= i < |items| && items[i].Id() != id ==> r[i] == items[i]
    ensures forall i :: 0 <= i < |items| && items[i].Id() == id ==>
              r[i].quantity == if add then items[i].quantity + q else q
  {
    seq(|items|, i requires 0 <= i < |items| =>
      if items[i].Id() == id
      then items[i].(quantity := if add then items[i].quantity + q else q)
      else items[i])
  }

  /** The reducer: the new list of line items after `action`. */
  function Reduce(items: seq<LineItem>, action: Action): (r: seq<LineItem>)
    ensures forall i :: 0 <= i < |r| ==>
              HasId(items, r[i].Id()) || action.LoadCart? ||
              (action.AddToCart? && r[i].Id() == action.item.id)
  {
    match action
    case AddToCart(p) =>
      if Find(items, p.id).Some? then MapQuantityWhere(items, p.id, 1, true)
      else items + [LineItem(p, 1)]
    case RemoveFromCart(id) => Filter(items, (item: LineItem) => item.Id() != id)
    case UpdateQuantity(id, q) => MapQuantityWhere(items, id, q, false)
    case ClearCart => []
    case LoadCart(payload) => payload
    case Unrecognised(_) => items
  }

  /** A call of the cart's public interface. */
  datatype Command =
    | Add(product: Product)
    | Remove(id: ProductId)
    | SetQuantity(id: ProductId, quantity: int)
    | Clear

  /**
   * The action each public operation dispatches. `updateQuantity` turns a
   * quantity of zero or less into a removal.
   */
  function ActionOf(cmd: Command): (a: Action)
    ensures !a.LoadCart? && !a.Unrecognised?
    ensures cmd.SetQuantity? && cmd.quantity <= 0 ==> a == RemoveFromCart(cmd.id)
    ensures a.UpdateQuantity? ==> a.quantity >= 1
  {
    match cmd
    case Add(p) => AddToCart(p)
    case Remove(id) => RemoveFromCart(id)
    case SetQuantity(id, q) => if q <= 0 then RemoveFromCart(id) else UpdateQuantity(id, q)
    case Clear => ClearCart
  }

  /** The line items after one public operation. */
  function Apply(items: seq<LineItem>, cmd: Command): seq<LineItem> {
    Reduce(items, ActionOf(cmd))
  }

  /** The line items after a series of public operations. */
  function Run(items: seq<LineItem>, cmds: seq<Command>): seq<LineItem>
    decreases |cmds|
  {
    if cmds == [] then items else Run(Apply(items, cmds[0]), cmds[1..])
  }

  // ---------------------------------------------------------------------
  // Adding
  // ---------------------------------------------------------------------

  /** Adding a product not yet in the cart appends one line item with quantity 1. */
  lemma AddAbsentAppends(items: seq<LineItem>, p: Product)
    requires !HasId(items, p.id)
    ensures Reduce(items, AddToCart(p)) == items + [LineItem(p, 1)]
    ensures Reduce(items, AddToCart(p))[|items|].product == p
  {
  }

  /**
   * Adding a product already in the cart keeps the length, adds 1 to that
   * item's quantity, keeps its stored product fields (name and price are not
   * refreshed from the new record) and leaves every other item alone.
   */
  lemma AddPresentIncrements(items: seq<LineItem>, p: Product)
    requires HasId(items, p.id)
    ensures var r := Reduce(items, AddToCart(p));
      && |r| == |items|
      && (forall i :: 0 <= i < |items| ==> r[i].product == items[i].product)
      && (forall i :: 0 <= i < |items| && items[i].Id() == p.id ==> r[i].quantity == items[i].quantity + 1)
      && (forall i :: 0 <= i < |items| && items[i].Id() != p.id ==> r[i] == items[i])
  {
  }

  /** Adding the same product twice to an empty cart gives one line item with quantity 2. */
  lemma AddTwiceGivesQuantityTwo(p: Product)
    ensures Reduce(Reduce([], AddToCart(p)), AddToCart(p)) == [LineItem(p, 2)]
  {
    var once := Reduce([], AddToCart(p));
    assert once == [LineItem(p, 1)];
    assert once[0].Id() == p.id;
    assert HasId(once, p.id);
  }

  // ---------------------------------------------------------------------
  // Removing
  // ---------------------------------------------------------------------

  /** Removing every item with an id keeps a list without duplicate ids free of them. */
  lemma {:induction false} RemoveKeepsUniqueIds(items: seq<LineItem>, id: ProductId)
    requires UniqueIds(items)
    ensures UniqueIds(Filter(items, (item: LineItem) => item.Id() != id))
  {
    if items != [] {
      var keep := (item: LineItem) => item.Id() != id;
      var rest := Filter(items[1..], keep);
      RemoveKeepsUniqueIds(items[1..], id);
      if keep(items[0]) {
        var r := [items[0]] + rest;
        forall i, j | 0 <= i < j < |r| ensures r[i].Id() != r[j].Id() {
          if i == 0 {
            var k :| 0 <= k < |items[1..]| && items[1..][k] == r[j];
            assert items[k + 1] == r[j];
          }
        }
      }
    }
  }

  /**
   * REMOVE_FROM_CART keeps, in their original order, exactly the items whose
   * id differs from the given one, and changes nothing when the id is absent.
   */
  lemma RemoveDropsEveryMatch(items: seq<LineItem>, id: ProductId)
    ensures var r := Reduce(items, RemoveFromCart(id));
      && Subsequence(r, items)
      && !HasId(r, id)
      && (forall i :: 0 <= i < |items| && items[i].Id() != id ==> items[i] in r)
      && (forall x | x in items :: multiset(r)[x] == if x.Id() != id then multiset(items)[x] else 0)
      && (!HasId(items, id) ==> r == items)
  {
    var keep := (item: LineItem) => item.Id() != id;
    FilterCounts(items, keep);
    if !HasId(items, id) {
      FilterKeepsAll(items, keep);
    }
  }

  // ---------------------------------------------------------------------
  // Setting a quantity
  // ---------------------------------------------------------------------

  /**
   * `updateQuantity(id, q)` with `q <= 0` is `removeFromCart(id)`; with
   * `q > 0` it sets the quantity of the matching item only and never creates
   * an item.
   */
  lemma SetQuantityEffect(items: seq<LineItem>, id: ProductId, q: int)
    ensures q <= 0 ==> Apply(items, SetQuantity(id, q)) == Apply(items, Remove(id))
    ensures q > 0 ==>
      var r := Apply(items, SetQuantity(id, q));
      && |r| == |items|
      && (forall i :: 0 <= i < |items| ==> r[i].product == items[i].product)
      && (forall i :: 0 <= i < |items| && items[i].Id() == id ==> r[i].quantity == q)
      && (forall i :: 0 <= i < |items| && items[i].Id() != id ==> r[i] == items[i])
      && (forall x :: HasId(r, x) <==> HasId(items, x))
  {
    if q > 0 {
      var r := Apply(items, SetQuantity(id, q));
      forall x ensures HasId(r, x) <==> HasId(items, x) {
        if HasId(items, x) {
          var i :| 0 <= i < |items| && items[i].Id() == x;
          assert r[i].Id() == x;
        }
      }
    }
  }

  // ---------------------------------------------------------------------
  // Clearing, loading and unknown actions
  // ---------------------------------------------------------------------

  /**
   * CLEAR_CART empties the list, LOAD_CART installs its payload exactly as
   * given (unchecked), and any other tag returns the list unchanged.
   */
  lemma ClearLoadAndUnrecognised(items: seq<LineItem>, payload: seq<LineItem>, tag: string)
    ensures Reduce(items, ClearCart) == []
    ensures Reduce(items, LoadCart(payload)) == payload
    ensures Reduce(items, Unrecognised(tag)) == items
  {
  }

  // ---------------------------------------------------------------------
  // Invariants
  // ---------------------------------------------------------------------

  /** Every action except LOAD_CART keeps ids unique. */
  lemma ReduceKeepsUniqueIds(items: seq<LineItem>, action: Action)
    requires UniqueIds(items) && !action.LoadCart?
    ensures UniqueIds(Reduce(items, action))
  {
    match action
    case AddToCart(p) =>
      if !HasId(items, p.id) {
        var r := items + [LineItem(p, 1)];
        forall i, j | 0 <= i < j < |r| ensures r[i].Id() != r[j].Id() {
          if j == |items| { assert r[i] == items[i]; }
        }
      }
    case RemoveFromCart(id) =>
      RemoveKeepsUniqueIds(items, id);
    case UpdateQuantity(_, _) =>
    case ClearCart =>
    case Unrecognised(_) =>
  }

  /** Every public operation keeps ids unique and every quantity at least 1. */
  lemma ApplyKeepsWellFormed(items: seq<LineItem>, cmd: Command)
    requires WellFormed(items)
    ensures WellFormed(Apply(items, cmd))
  {
    var a := ActionOf(cmd);
    ReduceKeepsUniqueIds(items, a);
    var r := Apply(items, cmd);
    forall i | 0 <= i < |r| ensures r[i].quantity >= 1 {
      if a.RemoveFromCart? {
        assert r[i] in items;
      }
    }
  }

  /** Any series of public operations keeps ids unique and quantities at least 1. */
  lemma {:induction false} RunKeepsWellFormed(items: seq<LineItem>, cmds: seq<Command>)
    requires WellFormed(items)
    ensures WellFormed(Run(items, cmds))
    decreases |cmds|
  {
    if cmds != [] {
      ApplyKeepsWellFormed(items, cmds[0]);
      RunKeepsWellFormed(Apply(items, cmds[0]), cmds[1..]);
    }
  }
}
