/**
 * Fixtures transcribed from the static catalog (prices in cents) and the
 * concrete cart scenarios they support.
 */
module Catalog {
  import opened Optional
  import opened Types
  import opened CartEngine
  import CartDrawer
  import ItemDetail

  const PizzaAllergens: seq<string> := ["1", "3", "7", "15"]

  /** Item p1: a pizza at 11.00 with three sizes at +0, +2 and +4. */
  const Margherita := MenuItem(
    "p1", "Margherita", "Fresh tomato sauce, extra mozzarella cheese, oregano",
    1100, Pizzas, PizzaAllergens, "",
    [SizeOption("10 inch", 0), SizeOption("12 inch", 200), SizeOption("14 inch", 400)])

  /** Item k1: a kebab at 10.00 without options. */
  const DonerKebab := MenuItem(
    "k1", "Doner Kebab", "Freshly sliced lamb doner in pita bread with crisp salad and house sauce",
    1000, Kebabs, [], "", [])

  /** Item c2: chips at 5.50 without options. */
  const GarlicChips := MenuItem(
    "c2", "Garlic Chips", "Golden chips smothered in our creamy signature garlic sauce",
    550, Chips, [], "", [])

  const TwelveInch := SizeOption("12 inch", 200)

  /** Three 12 inch Margheritas cost 3 * (11.00 + 2.00) = 39.00. */
  lemma ThreeTwelveInchMargheritas()
    ensures CartDrawer.Subtotal([CartItem(Margherita, 3, Some(TwelveInch))]) == 3900
  {
    assert CartDrawer.SumLineTotals([CartItem(Margherita, 3, Some(TwelveInch))][1..]) == 0;
  }

  /** Lines of quantities 2, 1 and 3 count 6. */
  lemma CountTwoOneThree()
    ensures CartCount([CartItem(Margherita, 2, Some(TwelveInch)), CartItem(DonerKebab, 1, None),
                       CartItem(GarlicChips, 3, None)]) == 6
  {
    var c := [CartItem(Margherita, 2, Some(TwelveInch)), CartItem(DonerKebab, 1, None), CartItem(GarlicChips, 3, None)];
    assert c[1..][1..][1..] == [];
    assert SumQuantities(c[1..][1..]) == 3;
    assert SumQuantities(c[1..]) == 4;
  }

  /** An update by -100 of a line of quantity 3 leaves it at 1. */
  lemma LargeDecrementClampsToOne()
    ensures UpdateQuantity([CartItem(DonerKebab, 3, None)], "k1", -100, None) == [CartItem(DonerKebab, 1, None)]
  {
    var r := UpdateQuantity([CartItem(DonerKebab, 3, None)], "k1", -100, None);
    assert r[0] == CartItem(DonerKebab, 1, None);
  }

  /**
   * Empty cart, add a 12 inch Margherita: 13.00 and one item; add it again:
   * 26.00 and two items; minus once: 13.00 and one item.
   */
  lemma AddAddMinusScenario()
    ensures var c1 := AddToCart([], Margherita, Some("12 inch"));
            c1 == [CartItem(Margherita, 1, Some(TwelveInch))] &&
            CartDrawer.Subtotal(c1) == 1300 && CartCount(c1) == 1
    ensures var c2 := AddToCart(AddToCart([], Margherita, Some("12 inch")), Margherita, Some("12 inch"));
            c2 == [CartItem(Margherita, 2, Some(TwelveInch))] &&
            CartDrawer.Subtotal(c2) == 2600 && CartCount(c2) == 2
    ensures var c3 := UpdateQuantity(AddToCart(AddToCart([], Margherita, Some("12 inch")), Margherita, Some("12 inch")),
                                     "p1", -1, Some("12 inch"));
            c3 == [CartItem(Margherita, 1, Some(TwelveInch))] &&
            CartDrawer.Subtotal(c3) == 1300 && CartCount(c3) == 1
  {
    assert Margherita.options[1] == TwelveInch;
    assert NamesAnOption(Margherita, Some("12 inch"));
    AddTwice([], Margherita, Some("12 inch"));
    var c1 := AddToCart([], Margherita, Some("12 inch"));
    assert c1 == [CartItem(Margherita, 1, Some(TwelveInch))];
    assert c1[1..] == [];
    assert CartDrawer.SumLineTotals(c1) == 1300;
    assert SumQuantities(c1) == 1;
    var c2 := AddToCart(c1, Margherita, Some("12 inch"));
    assert c2 == [CartItem(Margherita, 2, Some(TwelveInch))];
    var c3 := UpdateQuantity(c2, "p1", -1, Some("12 inch"));
    assert c3[0] == CartItem(Margherita, 1, Some(TwelveInch));
    assert c3 == [CartItem(Margherita, 1, Some(TwelveInch))];
  }

  /**
   * The detail view adds an item without options under the name "", which no
   * line carries, so adding the Doner Kebab twice from it gives two lines.
   */
  lemma OptionlessItemFromDetailViewTwice()
    ensures var name := Some(ItemDetail.DefaultSize(Some(DonerKebab)));
            AddToCart(AddToCart([], DonerKebab, name), DonerKebab, name)
              == [CartItem(DonerKebab, 1, None), CartItem(DonerKebab, 1, None)]
  {
    AddTwice([], DonerKebab, Some(""));
  }

  /** Added under no name, the same item merges into one line of quantity 2. */
  lemma OptionlessItemWithoutNameTwice()
    ensures AddToCart(AddToCart([], DonerKebab, None), DonerKebab, None) == [CartItem(DonerKebab, 2, None)]
  {
    AddTwice([], DonerKebab, None);
  }

  /** Two portions of Garlic Chips at 5.50 cost 11.00. */
  lemma TwoGarlicChips()
    ensures CartDrawer.Subtotal(AddToCart(AddToCart([], GarlicChips, None), GarlicChips, None)) == 1100
  {
    AddTwice([], GarlicChips, None);
    assert CartDrawer.SumLineTotals([CartItem(GarlicChips, 2, None)][1..]) == 0;
  }

  /** Removing a size that is not in the cart leaves the cart as it was. */
  lemma RemoveAbsentSize()
    ensures RemoveItem([CartItem(Margherita, 1, Some(TwelveInch))], "p1", Some("14 inch"))
            == [CartItem(Margherita, 1, Some(TwelveInch))]
  {
    var c := [CartItem(Margherita, 1, Some(TwelveInch))];
    assert !Matches(c[0], "p1", Some("14 inch"));
    RemoveWithoutMatchIsIdentity(c, "p1", Some("14 inch"));
  }
}
