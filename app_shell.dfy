/**
 * The storefront's top-level component: the cart and the visibility of the
 * cart drawer, the checkout form and the item detail view, and the handlers
 * that replace them. It owns the state of the three stateful child views.
 */
module AppShell {
  import opened Optional
  import opened Types
  import opened CartEngine
  import Checkout
  import ItemDetail
  import Menu

  class App {
    var cart: Cart
    var isCartOpen: bool
    var isCheckoutOpen: bool
    var selectedItem: Option<MenuItem>
    const grid: Menu.MenuGrid
    const detail: ItemDetail.ItemDetailModal
    const checkout: Checkout.CheckoutModal

    /** Every line of the cart has a quantity of at least one. */
    ghost predicate Valid()
      reads this
    {
      AllPositive(cart)
    }

    constructor ()
      ensures Valid()
      ensures cart == [] && !isCartOpen && !isCheckoutOpen && selectedItem == None
      ensures fresh(grid) && fresh(detail) && fresh(checkout)
      ensures grid.activeCategory == Menu.All && detail.selectedSize == ""
      ensures checkout.details == Checkout.InitialDetails && !checkout.isSuccess
    {
      cart := [];
      isCartOpen := false;
      isCheckoutOpen := false;
      selectedItem := None;
      grid := new Menu.MenuGrid();
      detail := new ItemDetail.ItemDetailModal();
      checkout := new Checkout.CheckoutModal();
    }

    /**
     * The badge on the cart button: `cartCount`, drawn only when it is positive,
     * which is exactly when the cart has a line.
     */
    function Badge(): (b: Option<int>)
      reads this
      requires Valid()
      ensures b.Some? <==> |cart| > 0
      ensures b.Some? ==> b.value == CartCount(cart) && b.value >= |cart|
    {
      var n := CartCount(cart);
      if n > 0 then Some(n) else None
    }

    /** `handleAddToCart`: the cart takes the engine's add, and the drawer opens. */
    method AddToCart(item: MenuItem, name: Option<string>)
      requires Valid()
      modifies this
      ensures Valid()
      ensures cart == CartEngine.AddToCart(old(cart), item, name) && isCartOpen
      ensures isCheckoutOpen == old(isCheckoutOpen) && selectedItem == old(selectedItem)
    {
      ApplyKeepsPositive(cart, Add(item, name));
      cart := CartEngine.AddToCart(cart, item, name);
      isCartOpen := true;
    }

    /** `handleUpdateQuantity`. */
    method UpdateQuantity(id: string, delta: int, name: Option<string>)
      requires Valid()
      modifies this
      ensures Valid()
      ensures cart == CartEngine.UpdateQuantity(old(cart), id, delta, name)
      ensures isCartOpen == old(isCartOpen) && isCheckoutOpen == old(isCheckoutOpen) && selectedItem == old(selectedItem)
    {
      ApplyKeepsPositive(cart, Update(id, delta, name));
      cart := CartEngine.UpdateQuantity(cart, id, delta, name);
    }

    /** `handleRemoveItem`. */
    method RemoveItem(id: string, name: Option<string>)
      requires Valid()
      modifies this
      ensures Valid()
      ensures cart == CartEngine.RemoveItem(old(cart), id, name)
      ensures isCartOpen == old(isCartOpen) && isCheckoutOpen == old(isCheckoutOpen) && selectedItem == old(selectedItem)
    {
      ApplyKeepsPositive(cart, Remove(id, name));
      cart := CartEngine.RemoveItem(cart, id, name);
    }

    /** `handleCheckoutConfirm`: whatever the details, the cart is emptied. */
    method CheckoutConfirm(details: OrderDetails)
      modifies this
      ensures Valid() && cart == [] && CartCount(cart) == 0
      ensures isCartOpen == old(isCartOpen) && isCheckoutOpen == old(isCheckoutOpen) && selectedItem == old(selectedItem)
    {
      cart := ConfirmCheckout(cart);
    }

    /** The cart button of the navigation bar. */
    method OpenCart()
      modifies this
      ensures isCartOpen && cart == old(cart) && isCheckoutOpen == old(isCheckoutOpen) && selectedItem == old(selectedItem)
    {
      isCartOpen := true;
    }

    /** The drawer's `onClose`. */
    method CloseCart()
      modifies this
      ensures !isCartOpen && cart == old(cart) && isCheckoutOpen == old(isCheckoutOpen) && selectedItem == old(selectedItem)
    {
      isCartOpen := false;
    }

    /** The drawer's `onCheckout`. */
    method OpenCheckout()
      modifies this
      ensures isCheckoutOpen && cart == old(cart) && isCartOpen == old(isCartOpen) && selectedItem == old(selectedItem)
    {
      isCheckoutOpen := true;
    }

    /** The checkout form's `onClose`; the form keeps its draft. */
    method CloseCheckout()
      modifies this
      ensures !isCheckoutOpen && cart == old(cart) && isCartOpen == old(isCartOpen) && selectedItem == old(selectedItem)
    {
      isCheckoutOpen := false;
    }

    /**
     * The grid's `onViewDetails`: the item is shown, and the detail view's
     * effect selects its default size.
     */
    method ViewDetails(item: MenuItem)
      modifies this, detail
      ensures selectedItem == Some(item) && detail.selectedSize == ItemDetail.DefaultSize(Some(item))
      ensures cart == old(cart) && isCartOpen == old(isCartOpen) && isCheckoutOpen == old(isCheckoutOpen)
    {
      selectedItem := Some(item);
      detail.ItemChanged(selectedItem);
    }

    /**
     * A click on the k-th visible card of the grid: `onViewDetails` is
     * `setSelectedItem`, so the clicked item, one of the menu's items of the
     * active category, is shown with its default size.
     */
    method ClickMenuCard(items: seq<MenuItem>, k: nat)
      requires k < |Menu.FilteredItems(items, grid.activeCategory)|
      modifies this, detail
      ensures selectedItem == Some(Menu.FilteredItems(items, grid.activeCategory)[k])
      ensures selectedItem.value in items
      ensures grid.activeCategory.Only? ==> selectedItem.value.category == grid.activeCategory.category
      ensures detail.selectedSize == ItemDetail.DefaultSize(selectedItem)
      ensures cart == old(cart) && isCartOpen == old(isCartOpen) && isCheckoutOpen == old(isCheckoutOpen)
    {
      var item := grid.ClickCard(items, k);
      ViewDetails(item);
    }

    /** The detail view's `onClose`: no item is shown and the effect resets the size to ''. */
    method CloseDetails()
      modifies this, detail
      ensures selectedItem == None && detail.selectedSize == ""
      ensures cart == old(cart) && isCartOpen == old(isCartOpen) && isCheckoutOpen == old(isCheckoutOpen)
    {
      selectedItem := None;
      detail.ItemChanged(selectedItem);
    }

    /**
     * The detail view's add button: `onAddToCart(item, selectedSize)` and then
     * `onClose`. The size name is passed as a string, so an item without
     * options is added under the name "" rather than under no name.
     */
    method AddFromDetails()
      requires Valid() && selectedItem.Some?
      modifies this, detail
      ensures Valid()
      ensures cart == CartEngine.AddToCart(old(cart), old(selectedItem).value, Some(old(detail.selectedSize)))
      ensures isCartOpen && selectedItem == None && detail.selectedSize == ""
      ensures isCheckoutOpen == old(isCheckoutOpen)
    {
      var name := detail.AddToOrder();
      AddToCart(selectedItem.value, name);
      CloseDetails();
    }

    /**
     * The checkout timer: `onConfirm(details)` empties the cart, then `onClose`
     * hides the form, and the form leaves its success view. `confirmed` is the
     * draft handed to the confirmation; the draft itself is not reset.
     */
    method CheckoutTimerFires() returns (confirmed: OrderDetails)
      requires checkout.isSuccess
      modifies this, checkout
      ensures confirmed == old(checkout.details) && checkout.details == old(checkout.details)
      ensures Valid() && cart == [] && !isCheckoutOpen && !checkout.isSuccess
      ensures isCartOpen == old(isCartOpen) && selectedItem == old(selectedItem)
    {
      CheckoutConfirm(checkout.details);
      CloseCheckout();
      confirmed := checkout.TimerFires();
    }
  }
}
