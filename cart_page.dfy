/**
 * The cart page's controllers: the quantity buttons and field, the remove
 * button, the order summary's delivery-fee rule and the checkout button.
 * Each confirmation dialog is an input: `true` when the shopper confirms.
 */
module CartPage {
  import opened Wrappers
  import opened Store

  /** Free delivery from this subtotal on. */
  const FREE_DELIVERY_THRESHOLD: int := 200

  /** The delivery fee charged below the threshold. */
  const DELIVERY_FEE: int := 20

  /** The cart after `updateCartQuantity(productId, quantity)` with the dialog answered `confirmed`. */
  function AfterQuantityRequest(items: seq<LineItem>, productId: string, quantity: int, confirmed: bool)
    : (r: seq<LineItem>)
    ensures quantity < 1 && confirmed ==> forall l :: l in r <==> l in items && l.product.id != productId
    ensures quantity < 1 && !confirmed ==> r == items
    ensures quantity >= 1 ==> |r| == |items| && forall j :: 0 <= j < |r| ==> r[j].product == items[j].product
  {
    if quantity < 1 then
      (if confirmed then Removed(items, productId) else items)
    else
      QuantityUpdated(items, productId, quantity)
  }

  /** The cart after `removeCartItem(productId)` with the dialog answered `confirmed`. */
  function AfterRemoveRequest(items: seq<LineItem>, productId: string, confirmed: bool): (r: seq<LineItem>)
    ensures confirmed ==> forall l :: l in r <==> l in items && l.product.id != productId
    ensures !confirmed ==> r == items
  {
    if confirmed then Removed(items, productId) else items
  }

  /** The quantity the "−" button of a line requests. */
  function MinusRequest(l: LineItem): (r: int)
    ensures r + 1 == l.quantity
    ensures r < 1 <==> l.quantity <= 1
  {
    l.quantity - 1
  }

  /** The quantity the "+" button of a line requests. */
  function PlusRequest(l: LineItem): (r: int)
    ensures r - 1 == l.quantity
    ensures r >= 1 <==> l.quantity >= 0
  {
    l.quantity + 1
  }

  /**
   * A request below one, confirmed, removes every line with that id and keeps
   * the others; declined, it leaves the cart as it was.
   */
  lemma LowRequestOutcome(items: seq<LineItem>, productId: string, quantity: int)
    requires quantity < 1
    ensures forall l :: l in AfterQuantityRequest(items, productId, quantity, true)
                        <==> l in items && l.product.id != productId
    ensures AfterQuantityRequest(items, productId, quantity, false) == items
  {
  }

  /**
   * In a cart with unique ids, a request of at least one for line `i` sets its
   * quantity to exactly that value and keeps every line, that one included.
   */
  lemma RequestSetsQuantity(items: seq<LineItem>, i: nat, quantity: int, confirmed: bool)
    requires UniqueIds(items) && i < |items|
    requires quantity >= 1
    ensures AfterQuantityRequest(items, items[i].product.id, quantity, confirmed)
            == items[i := items[i].(quantity := quantity)]
  {
    UpdatedAt(items, i, quantity);
  }

  /**
   * "−" on a line holding one unit takes the removal path: confirmed, the line
   * goes and the others keep their order; declined, nothing changes.
   */
  lemma MinusAtOne(items: seq<LineItem>, i: nat)
    requires UniqueIds(items) && i < |items|
    requires items[i].quantity == 1
    ensures AfterQuantityRequest(items, items[i].product.id, MinusRequest(items[i]), true)
            == items[..i] + items[i + 1..]
    ensures AfterQuantityRequest(items, items[i].product.id, MinusRequest(items[i]), false) == items
  {
    RemovedAt(items, i);
  }

  /** "−" on a line holding more than one unit lowers its quantity by one, with no dialog. */
  lemma MinusAboveOne(items: seq<LineItem>, i: nat, confirmed: bool)
    requires UniqueIds(items) && i < |items|
    requires items[i].quantity > 1
    ensures AfterQuantityRequest(items, items[i].product.id, MinusRequest(items[i]), confirmed)
            == items[i := items[i].(quantity := items[i].quantity - 1)]
  {
    RequestSetsQuantity(items, i, MinusRequest(items[i]), confirmed);
  }

  /** "+" on a line of a well-formed cart raises its quantity by one and the badge count by one. */
  lemma PlusAddsOne(items: seq<LineItem>, i: nat, confirmed: bool)
    requires WellFormed(items) && i < |items|
    ensures AfterQuantityRequest(items, items[i].product.id, PlusRequest(items[i]), confirmed)
            == items[i := items[i].(quantity := items[i].quantity + 1)]
    ensures ItemCount(AfterQuantityRequest(items, items[i].product.id, PlusRequest(items[i]), confirmed))
            == ItemCount(items) + 1
  {
    RequestSetsQuantity(items, i, PlusRequest(items[i]), confirmed);
    Lists.SumUpdate(items, i, items[i].(quantity := items[i].quantity + 1), LineQuantity);
  }

  /** The remove button removes only on confirmation. */
  lemma RemoveRequestOutcome(items: seq<LineItem>, productId: string)
    ensures forall l :: l in AfterRemoveRequest(items, productId, true) <==> l in items && l.product.id != productId
    ensures AfterRemoveRequest(items, productId, false) == items
  {
  }

  /** The delivery fee of `updateCartSummary`: nothing from the threshold on, the flat fee below it. */
  function DeliveryFee(subtotal: int): (fee: int)
    ensures fee == 0 <==> subtotal >= FREE_DELIVERY_THRESHOLD
    ensures fee == 0 || fee == DELIVERY_FEE
  {
    if subtotal >= FREE_DELIVERY_THRESHOLD then 0 else DELIVERY_FEE
  }

  /** The figures the order summary shows. */
  datatype Summary = Summary(subtotal: int, deliveryFee: int, total: int)

  /** The summary of a cart: its subtotal, the fee on it and their sum. */
  function CartSummary(items: seq<LineItem>): (s: Summary)
    ensures s.subtotal == Subtotal(items)
    ensures s.deliveryFee == DeliveryFee(s.subtotal)
    ensures s.total == s.subtotal + s.deliveryFee
    ensures s.subtotal <= s.total <= s.subtotal + DELIVERY_FEE
    ensures s.total == s.subtotal <==> s.subtotal >= FREE_DELIVERY_THRESHOLD
  {
    var subtotal := Subtotal(items);
    var fee := DeliveryFee(subtotal);
    Summary(subtotal, fee, subtotal + fee)
  }

  /** Which notification the checkout button ends with. */
  datatype CheckoutOutcome = EmptyCartWarning | OrderDeclined | OrderPlaced

  /** `updateCartQuantity`: below one asks to remove, otherwise hands the quantity to the store. */
  method UpdateCartQuantity(c: CartManager, productId: string, quantity: int, confirmed: bool)
    modifies c
    ensures c.cart == AfterQuantityRequest(old(c.cart), productId, quantity, confirmed)
    ensures quantity < 1 && confirmed ==> c.slot == Some(c.cart)
    ensures quantity < 1 && !confirmed ==> c.slot == old(c.slot)
    ensures quantity >= 1 && IndexOf(old(c.cart), productId).Some? ==> c.slot == Some(c.cart)
    ensures quantity >= 1 && IndexOf(old(c.cart), productId).None? ==> c.slot == old(c.slot)
    ensures old(c.Valid()) ==> c.Valid()
    ensures old(WellFormed(c.cart)) ==> WellFormed(c.cart)
  {
    if quantity < 1 {
      if confirmed {
        c.RemoveItem(productId);
      }
    } else {
      c.UpdateQuantity(productId, quantity);
    }
  }

  /** `removeCartItem`: removes the line only when the dialog is confirmed. */
  method RemoveCartItem(c: CartManager, productId: string, confirmed: bool)
    modifies c
    ensures c.cart == AfterRemoveRequest(old(c.cart), productId, confirmed)
    ensures confirmed ==> c.slot == Some(c.cart)
    ensures !confirmed ==> c.slot == old(c.slot)
  {
    if confirmed {
      c.RemoveItem(productId);
    }
  }

  /** `updateCartSummary`, without the text it writes into the page. */
  function UpdateCartSummary(c: CartManager): (s: Summary)
    reads c
    ensures s.subtotal == c.GetTotal()
    ensures s.deliveryFee == DeliveryFee(c.GetTotal())
    ensures s.total == c.GetTotal() + DeliveryFee(c.GetTotal())
  {
    CartSummary(c.cart)
  }

  /**
   * `handleCheckout`: an empty cart only gets a warning; otherwise the demo
   * order is placed, emptying cart and slot, when the delayed dialog is confirmed.
   */
  method HandleCheckout(c: CartManager, confirmed: bool) returns (outcome: CheckoutOutcome)
    modifies c
    ensures old(c.cart) == [] ==> outcome == EmptyCartWarning && c.cart == old(c.cart) && c.slot == old(c.slot)
    ensures old(c.cart) != [] && confirmed ==> outcome == OrderPlaced && c.cart == [] && c.slot == Some([])
    ensures old(c.cart) != [] && !confirmed ==> outcome == OrderDeclined && c.cart == old(c.cart) && c.slot == old(c.slot)
  {
    if |c.cart| == 0 {
      return EmptyCartWarning;
    }
    if confirmed {
      c.ClearCart();
      outcome := OrderPlaced;
    } else {
      outcome := OrderDeclined;
    }
  }
}
