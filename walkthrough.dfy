/**
 * A shopper's session on the large egg crate, written as a client of the
 * store: what each step leaves in the cart, in the badge count, in the
 * subtotal and in the storage slot, each step checked by the verifier.
 */
module Walkthrough {
  import opened Wrappers
  import opened Catalog
  import opened Store
  import opened CartPage

  method EggsSession()
  {
    var eggs := PRODUCTS[0];
    var c := new CartManager(None);
    assert c.cart == [] && c.GetItemCount() == 0;

    c.AddItem(eggs);
    assert c.cart == [LineItem(eggs, 1)];
    assert c.GetItemCount() == 1 && c.GetTotal() == 45;

    c.AddItem(eggs);
    assert c.cart == [LineItem(eggs, 2)];
    assert c.GetItemCount() == 2 && c.GetTotal() == 90;

    // The store clamps a request of zero to one; only the page turns it into a removal.
    c.UpdateQuantity("eggs-large", 0);
    assert c.cart == [LineItem(eggs, 1)] && c.GetTotal() == 45;

    c.RemoveItem("eggs-large");
    assert c.cart == [] && c.GetTotal() == 0;

    // Reloading the page restores the empty cart from the slot.
    var reloaded := new CartManager(c.slot);
    assert reloaded.cart == [];
  }

  method CheckoutSession(confirmed: bool)
  {
    var c := new CartManager(None);
    var first := HandleCheckout(c, confirmed);
    assert first == EmptyCartWarning;

    GuardAdmitsPullets();
    GuardRejectsUnknown();
    var pullet := PRODUCTS[4];
    AddToCart(c, "layer-pullet");
    assert c.cart == [LineItem(pullet, 1)];

    AddToCart(c, "duck");
    assert c.cart == [LineItem(pullet, 1)];

    var second := HandleCheckout(c, confirmed);
    assert confirmed ==> second == OrderPlaced && c.cart == [];
    assert !confirmed ==> second == OrderDeclined && c.cart == [LineItem(pullet, 1)];
  }

  method SummarySession()
  {
    var pullet, mature := PRODUCTS[4], PRODUCTS[5];
    assert pullet.price == 50 && mature.price == 55;
    var c := new CartManager(Some([LineItem(pullet, 1)]));
    assert c.GetTotal() == 50;
    assert UpdateCartSummary(c) == Summary(50, 20, 70);

    // Four mature layers pass the threshold, so delivery is free.
    var d := new CartManager(Some([LineItem(mature, 4)]));
    assert d.GetTotal() == 220;
    assert UpdateCartSummary(d) == Summary(220, 0, 220);
  }
}
