/**
 * The storefront's records: menu items with their size options, cart lines and
 * the checkout form's order details. Money is counted in integer cents.
 */
module Types {
  import opened Optional

  datatype Category = Pizzas | Kebabs | Boxes | Burgers | Chips | Tenders | Meals

  /** A size choice of a menu item: its name and the surcharge, in cents, added to the base price. */
  datatype SizeOption = SizeOption(name: string, price: int)

  /**
   * A catalog entry. An item without size options has `options == []`, and one
   * without allergen codes has `allergens == []`.
   */
  datatype MenuItem = MenuItem(
    id: string,
    name: string,
    description: string,
    price: int,
    category: Category,
    allergens: seq<string>,
    image: string,
    options: seq<SizeOption>)

  /** One line of the cart: the item's fields, how many, and the size chosen for it (if any). */
  datatype CartItem = CartItem(item: MenuItem, quantity: int, selectedOption: Option<SizeOption>)
  {
    /** `selectedOption?.name`: the second half of the line's key. */
    function OptionName(): Option<string> {
      if selectedOption.Some? then Some(selectedOption.value.name) else None
    }

    /** `selectedOption?.price || 0`: the surcharge the line pays per unit. */
    function OptionPrice(): int {
      if selectedOption.Some? then selectedOption.value.price else 0
    }
  }

  datatype PaymentMethod = Card | Cash

  datatype OrderDetails = OrderDetails(
    customerName: string,
    phone: string,
    address: string,
    paymentMethod: PaymentMethod)
}
