/**
 * The cart store of the shop: the list of line items held by the single
 * `CartManager`, the operations that change it, the two folds that read it
 * and the storage slot that mirrors it.
 */
module Store {
  import opened Wrappers
  import opened Lists
  import opened Catalog

  /** One cart line: the catalog fields copied at add-time plus the quantity. */
  datatype LineItem = LineItem(product: Product, quantity: int)

  /** The test `item => item.id === productId`. */
  function LineHasId(productId: string): LineItem -> bool
  {
    (l: LineItem) => l.product.id == productId
  }

  /** The test `item => item.id !== productId` that `removeItem` filters by. */
  function LineOtherThan(productId: string): LineItem -> bool
  {
    (l: LineItem) => l.product.id != productId
  }

  /** `this.cart.find(item => item.id === productId)`, as a position. */
  function IndexOf(items: seq<LineItem>, productId: string): Option<nat>
  {
    FirstIndex(items, LineHasId(productId))
  }

  /** At most one line per product id. */
  predicate UniqueIds(items: seq<LineItem>)
  {
    forall i, j :: 0 <= i < j < |items| ==> items[i].product.id != items[j].product.id
  }

  /** Every line holds at least one unit. */
  predicate PositiveQuantities(items: seq<LineItem>)
  {
    forall i :: 0 <= i < |items| ==> items[i].quantity >= 1
  }

  /** The invariants the cart operations keep. */
  predicate WellFormed(items: seq<LineItem>)
  {
    UniqueIds(items) && PositiveQuantities(items)
  }

  /** `Math.max(1, quantity)`. */
  function AtLeastOne(quantity: int): (r: int)
    ensures r >= 1 && r >= quantity
    ensures r == quantity || r == 1
  {
    if quantity < 1 then 1 else quantity
  }

  /** The line amount `item.price * item.quantity`. */
  function LineAmount(l: LineItem): int
  {
    l.product.price * l.quantity
  }

  /** The quantity a line contributes to the badge count. */
  function LineQuantity(l: LineItem): int
  {
    l.quantity
  }

  /** The sum of price times quantity over the lines. */
  function Subtotal(items: seq<LineItem>): int
  {
    Sum(items, LineAmount)
  }

  /** The sum of the quantities of the lines. */
  function ItemCount(items: seq<LineItem>): int
  {
    Sum(items, LineQuantity)
  }

  /** The cart after `addItem(product)`. */
  function Added(items: seq<LineItem>, product: Product): (r: seq<LineItem>)
    ensures IndexOf(items, product.id).Some? ==> |r| == |items|
    ensures IndexOf(items, product.id).None? ==> |r| == |items| + 1
    ensures forall j :: 0 <= j < |items| ==> r[j].product == items[j].product
    ensures forall j :: |items| <= j < |r| ==> r[j] == LineItem(product, 1)
  {
    match IndexOf(items, product.id)
    case Some(i) => items[i := items[i].(quantity := items[i].quantity + 1)]
    case None => items + [LineItem(product, 1)]
  }

  /** The cart after `removeItem(productId)`. */
  function Removed(items: seq<LineItem>, productId: string): (r: seq<LineItem>)
    ensures forall k :: 0 <= k < |r| ==> r[k].product.id != productId
    ensures forall l :: l in r <==> l in items && l.product.id != productId
  {
    Filter(items, LineOtherThan(productId))
  }

  /** The cart after `updateQuantity(productId, quantity)`. */
  function QuantityUpdated(items: seq<LineItem>, productId: string, quantity: int): (r: seq<LineItem>)
    ensures |r| == |items|
    ensures forall j :: 0 <= j < |r| ==> r[j].product == items[j].product
    ensures forall j :: 0 <= j < |r| && r[j] != items[j] ==>
              r[j].product.id == productId && r[j].quantity == AtLeastOne(quantity)
  {
    match IndexOf(items, productId)
    case Some(i) => items[i := items[i].(quantity := AtLeastOne(quantity))]
    case None => items
  }

  /** What `loadCart` returns for the slot's contents: the saved list, or an empty cart when nothing is saved. */
  function Restore(saved: Option<seq<LineItem>>): (r: seq<LineItem>)
    ensures saved.None? ==> r == []
    ensures saved.Some? ==> r == saved.value
  {
    match saved
    case Some(items) => items
    case None => []
  }

  // ----- addItem -----

  /** For an id not in the cart, one line with the product's fields and quantity 1 is appended after the untouched lines. */
  lemma AddNewLine(items: seq<LineItem>, product: Product)
    requires forall j :: 0 <= j < |items| ==> items[j].product.id != product.id
    ensures Added(items, product) == items + [LineItem(product, 1)]
  {
  }

  /** In a cart with unique ids, adding a product already in it increments that line only. */
  lemma AddExistingLine(items: seq<LineItem>, product: Product, i: nat)
    requires UniqueIds(items)
    requires i < |items| && items[i].product.id == product.id
    ensures |Added(items, product)| == |items|
    ensures Added(items, product)[i] == items[i].(quantity := items[i].quantity + 1)
    ensures forall j :: 0 <= j < |items| && j != i ==> Added(items, product)[j] == items[j]
  {
    var k := IndexOf(items, product.id);
    assert k.Some? && items[k.value].product.id == product.id;
    assert k.value == i;
  }

  /** Adding keeps ids unique and quantities positive. */
  lemma AddedWellFormed(items: seq<LineItem>, product: Product)
    requires WellFormed(items)
    ensures WellFormed(Added(items, product))
  {
    var r := Added(items, product);
    match IndexOf(items, product.id)
    case Some(i) =>
      assert forall j :: 0 <= j < |r| ==> r[j].product.id == items[j].product.id;
    case None =>
      assert forall j :: 0 <= j < |items| ==> r[j] == items[j];
  }

  /** Every `addItem` raises the item count by exactly one. */
  lemma AddedItemCount(items: seq<LineItem>, product: Product)
    ensures ItemCount(Added(items, product)) == ItemCount(items) + 1
  {
    match IndexOf(items, product.id)
    case Some(i) =>
      SumUpdate(items, i, items[i].(quantity := items[i].quantity + 1), LineQuantity);
    case None =>
      SumConcat(items, [LineItem(product, 1)], LineQuantity);
      assert Sum([LineItem(product, 1)], LineQuantity) == 1;
  }

  /**
   * Every `addItem` raises the subtotal by one unit price: the price stored in
   * the matching line if there is one (copied when it was first added), else
   * the product's price.
   */
  lemma AddedSubtotal(items: seq<LineItem>, product: Product)
    ensures Subtotal(Added(items, product))
            == Subtotal(items) + match IndexOf(items, product.id)
                                 case Some(i) => items[i].product.price
                                 case None => product.price
  {
    match IndexOf(items, product.id)
    case Some(i) =>
      SumUpdate(items, i, items[i].(quantity := items[i].quantity + 1), LineAmount);
      assert LineAmount(items[i].(quantity := items[i].quantity + 1))
          == LineAmount(items[i]) + items[i].product.price;
    case None =>
      SumConcat(items, [LineItem(product, 1)], LineAmount);
      assert Sum([LineItem(product, 1)], LineAmount) == product.price;
  }

  /** The cart after `n` calls of `addItem(product)`. */
  function AddedTimes(items: seq<LineItem>, product: Product, n: nat): seq<LineItem>
  {
    if n == 0 then items else Added(AddedTimes(items, product, n - 1), product)
  }

  /** Adding a product whose only line is the last one raises that line's quantity by one. */
  lemma AddToTrailingLine(items: seq<LineItem>, product: Product, m: int)
    requires forall j :: 0 <= j < |items| ==> items[j].product.id != product.id
    ensures Added(items + [LineItem(product, m)], product) == items + [LineItem(product, m + 1)]
  {
    var prev := items + [LineItem(product, m)];
    assert LineHasId(product.id)(prev[|items|]);
    var k := IndexOf(prev, product.id);
    assert k.Some? && prev[k.value].product.id == product.id;
    assert k.value == |items|;
  }

  /**
   * Starting from a cart without the product, `n >= 1` adds leave the earlier
   * lines alone and exactly one new line for it, whose quantity is `n`.
   */
  lemma {:induction false} AddedTimesOneLine(items: seq<LineItem>, product: Product, n: nat)
    requires forall j :: 0 <= j < |items| ==> items[j].product.id != product.id
    requires n >= 1
    ensures AddedTimes(items, product, n) == items + [LineItem(product, n)]
  {
    var prev := AddedTimes(items, product, n - 1);
    assert AddedTimes(items, product, n) == Added(prev, product);
    if n == 1 {
      assert prev == items;
      AddNewLine(items, product);
    } else {
      AddedTimesOneLine(items, product, n - 1);
      AddToTrailingLine(items, product, n - 1);
    }
  }

  // ----- removeItem -----

  /** Removing an id that is not in the cart leaves the cart exactly as it was. */
  lemma RemovedAbsent(items: seq<LineItem>, productId: string)
    requires IndexOf(items, productId).None?
    ensures Removed(items, productId) == items
  {
    FilterKeepsAll(items, LineOtherThan(productId));
  }

  /** In a cart with unique ids, removing the id of line `i` drops that line and keeps the rest in order. */
  lemma RemovedAt(items: seq<LineItem>, i: nat)
    requires UniqueIds(items) && i < |items|
    ensures Removed(items, items[i].product.id) == items[..i] + items[i + 1..]
  {
    var p := LineOtherThan(items[i].product.id);
    var before, after := items[..i], items[i + 1..];
    forall j | 0 <= j < |before| ensures p(before[j]) {
      assert before[j] == items[j];
    }
    forall j | 0 <= j < |after| ensures p(after[j]) {
      assert after[j] == items[i + 1 + j];
    }
    assert items == before + [items[i]] + after;
    FilterDropsOne(before, items[i], after, p);
  }

  /** Dropping one line of a well-formed cart leaves a well-formed cart. */
  lemma DropLineWellFormed(items: seq<LineItem>, i: nat)
    requires WellFormed(items) && i < |items|
    ensures WellFormed(items[..i] + items[i + 1..])
  {
    var r := items[..i] + items[i + 1..];
    forall j | 0 <= j < |r| ensures r[j] == items[if j < i then j else j + 1] {
    }
  }

  /** Removing keeps ids unique and quantities positive. */
  lemma RemovedWellFormed(items: seq<LineItem>, productId: string)
    requires WellFormed(items)
    ensures WellFormed(Removed(items, productId))
  {
    var found := IndexOf(items, productId);
    if found.None? {
      RemovedAbsent(items, productId);
    } else {
      var i := found.value;
      assert items[i].product.id == productId;
      RemovedAt(items, i);
      DropLineWellFormed(items, i);
    }
  }

  /** In a cart with unique ids, removing line `i` lowers the item count by its quantity. */
  lemma RemovedItemCount(items: seq<LineItem>, i: nat)
    requires UniqueIds(items) && i < |items|
    ensures ItemCount(Removed(items, items[i].product.id)) == ItemCount(items) - items[i].quantity
  {
    RemovedAt(items, i);
    assert items == items[..i] + [items[i]] + items[i + 1..];
    SumConcat(items[..i] + [items[i]], items[i + 1..], LineQuantity);
    SumConcat(items[..i], [items[i]], LineQuantity);
    SumConcat(items[..i], items[i + 1..], LineQuantity);
  }

  // ----- updateQuantity -----

  /**
   * In a cart with unique ids, updating the id of line `i` sets that line's
   * quantity to `max(1, quantity)` and touches no other line.
   */
  lemma UpdatedAt(items: seq<LineItem>, i: nat, quantity: int)
    requires UniqueIds(items) && i < |items|
    ensures |QuantityUpdated(items, items[i].product.id, quantity)| == |items|
    ensures QuantityUpdated(items, items[i].product.id, quantity)[i]
            == items[i].(quantity := if quantity < 1 then 1 else quantity)
    ensures forall j :: 0 <= j < |items| && j != i ==> QuantityUpdated(items, items[i].product.id, quantity)[j] == items[j]
  {
    var k := IndexOf(items, items[i].product.id);
    assert k.Some? && items[k.value].product.id == items[i].product.id;
    assert k.value == i;
  }

  /** Updating an id that is not in the cart changes nothing. */
  lemma UpdatedAbsent(items: seq<LineItem>, productId: string, quantity: int)
    requires forall j :: 0 <= j < |items| ==> items[j].product.id != productId
    ensures QuantityUpdated(items, productId, quantity) == items
  {
  }

  /** Updating keeps ids unique and quantities positive, whatever quantity is asked for. */
  lemma UpdatedWellFormed(items: seq<LineItem>, productId: string, quantity: int)
    requires WellFormed(items)
    ensures WellFormed(QuantityUpdated(items, productId, quantity))
  {
    var r := QuantityUpdated(items, productId, quantity);
    assert forall j :: 0 <= j < |r| ==> r[j].product.id == items[j].product.id;
  }

  // ----- the folds -----

  /** The badge count of a well-formed cart is at least its number of lines. */
  lemma ItemCountAtLeastLines(items: seq<LineItem>)
    requires PositiveQuantities(items)
    ensures ItemCount(items) >= |items|
  {
    SumAtLeastLength(items, LineQuantity);
  }

  /**
   * The single `CartManager` of the page: the in-memory cart and the storage
   * slot `'poultryCart'` it writes after every change.
   */
  class CartManager {
    var cart: seq<LineItem>
    var slot: Option<seq<LineItem>>

    /** Reloading the slot would give back exactly the in-memory cart. */
    ghost predicate Valid()
      reads this
    {
      Restore(slot) == cart
    }

    /** `new CartManager()`: the cart is whatever `loadCart` finds in the slot. */
    constructor (saved: Option<seq<LineItem>>)
      ensures slot == saved && cart == Restore(saved)
      ensures Valid()
      ensures saved.None? ==> cart == []
    {
      slot := saved;
      cart := Restore(saved);
    }

    /** `saveCart`: the slot receives a copy of the whole cart. */
    method SaveCart()
      modifies this`slot
      ensures slot == Some(cart)
      ensures Valid()
    {
      slot := Some(cart);
    }

    method AddItem(product: Product)
      modifies this
      ensures cart == Added(old(cart), product)
      ensures slot == Some(cart) && Valid()
      ensures ItemCount(cart) == ItemCount(old(cart)) + 1
      ensures old(WellFormed(cart)) ==> WellFormed(cart)
    {
      AddedItemCount(cart, product);
      if WellFormed(cart) {
        AddedWellFormed(cart, product);
      }
      var found := IndexOf(cart, product.id);
      if found.Some? {
        var i := found.value;
        cart := cart[i := cart[i].(quantity := cart[i].quantity + 1)];
      } else {
        cart := cart + [LineItem(product, 1)];
      }
      SaveCart();
    }

    method RemoveItem(productId: string)
      modifies this
      ensures cart == Removed(old(cart), productId)
      ensures slot == Some(cart) && Valid()
      ensures old(WellFormed(cart)) ==> WellFormed(cart)
    {
      if WellFormed(cart) {
        RemovedWellFormed(cart, productId);
      }
      cart := Filter(cart, LineOtherThan(productId));
      SaveCart();
    }

    method UpdateQuantity(productId: string, quantity: int)
      modifies this
      ensures cart == QuantityUpdated(old(cart), productId, quantity)
      ensures IndexOf(old(cart), productId).Some? ==> slot == Some(cart)
      ensures IndexOf(old(cart), productId).None? ==> cart == old(cart) && slot == old(slot)
      ensures old(Valid()) ==> Valid()
      ensures old(WellFormed(cart)) ==> WellFormed(cart)
    {
      if WellFormed(cart) {
        UpdatedWellFormed(cart, productId, quantity);
      }
      var found := IndexOf(cart, productId);
      if found.Some? {
        var i := found.value;
        cart := cart[i := cart[i].(quantity := AtLeastOne(quantity))];
        SaveCart();
      }
    }

    /** `getTotal`: the reduce over the lines, which is the sum of price times quantity. */
    function GetTotal(): (total: int)
      reads this
      ensures total == Subtotal(cart)
    {
      Reduce(0, cart, LineAmount)
    }

    /** `getItemCount`: the reduce over the lines, which is the sum of the quantities. */
    function GetItemCount(): (count: int)
      reads this
      ensures count == ItemCount(cart)
    {
      Reduce(0, cart, LineQuantity)
    }

    method ClearCart()
      modifies this
      ensures cart == [] && slot == Some([])
      ensures Valid() && WellFormed(cart)
    {
      cart := [];
      SaveCart();
    }
  }

  /** `addToCart(productId)`: hands the catalog product to the cart only when it exists and is available. */
  method AddToCart(c: CartManager, productId: string)
    modifies c
    ensures Purchasable(PRODUCTS, productId).Some? ==>
              c.cart == Added(old(c.cart), Purchasable(PRODUCTS, productId).value) && c.slot == Some(c.cart)
    ensures Purchasable(PRODUCTS, productId).None? ==> c.cart == old(c.cart) && c.slot == old(c.slot)
  {
    var product := FindProduct(PRODUCTS, productId);
    if product.Some? && product.value.available {
      c.AddItem(product.value);
    }
  }
}
