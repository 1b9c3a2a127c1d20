/**
 * The cart drawer: it holds no state of its own. It folds the cart into a
 * subtotal, shows every line with its own total, and wires the minus, plus
 * and remove buttons of each line back to the cart engine with that line's key.
 */
module CartDrawer {
  import opened Optional
  import opened Types
  import opened CartEngine

  /**
   * `price + (selectedOption?.price || 0)`: the price of one unit of the line,
   * the base price alone when the line has no option.
   */
  function UnitPrice(line: CartItem): (u: int)
    ensures line.selectedOption.None? ==> u == line.item.price
    ensures line.selectedOption.Some? ==> u == line.item.price + line.selectedOption.value.price
  {
    line.item.price + line.OptionPrice()
  }

  /** `(price + (selectedOption?.price || 0)) * quantity`, the figure shown on a line. */
  function LineTotal(line: CartItem): int {
    UnitPrice(line) * line.quantity
  }

  /**
   * The figure on a line moves by one unit price per unit of quantity, so the
   * plus and minus buttons change it by exactly one unit price (unless minus
   * is clamped at 1).
   */
  lemma LineTotalTracksQuantity(line: CartItem, delta: int)
    ensures LineTotal(line.(quantity := line.quantity + delta)) == LineTotal(line) + delta * UnitPrice(line)
  {
  }

  /** Reference sum of the line totals. */
  function SumLineTotals(cart: Cart): int {
    if cart == [] then 0 else LineTotal(cart[0]) + SumLineTotals(cart[1..])
  }

  /** The left fold `cart.reduce((sum, item) => sum + lineTotal, 0)`, from an accumulator. */
  function SubtotalFrom(sum: int, cart: Cart): int
    decreases |cart|
  {
    if cart == [] then sum else SubtotalFrom(sum + LineTotal(cart[0]), cart[1..])
  }

  lemma {:induction false} SubtotalFromIsSum(sum: int, cart: Cart)
    ensures SubtotalFrom(sum, cart) == sum + SumLineTotals(cart)
    decreases |cart|
  {
    if cart != [] {
      SubtotalFromIsSum(sum + LineTotal(cart[0]), cart[1..]);
    }
  }

  /** The drawer's `total`: the sum of the line totals, 0 for the empty cart. */
  function Subtotal(cart: Cart): (t: int)
    ensures t == SumLineTotals(cart)
    ensures cart == [] ==> t == 0
  {
    SubtotalFromIsSum(0, cart);
    SubtotalFrom(0, cart)
  }

  /** The key `(item.id, item.selectedOption?.name)` that a line's buttons pass back. */
  function KeyOf(line: CartItem): (string, Option<string>) {
    (line.item.id, line.OptionName())
  }

  /** What the drawer draws for one line: the line, its total and the action of each button. */
  datatype Row = Row(line: CartItem, lineTotal: int, minus: CartAction, plus: CartAction, remove: CartAction)

  /**
   * The row of one line: it shows that line and its total, and each of its
   * three buttons targets a key that the line itself carries.
   */
  function RowFor(line: CartItem): (row: Row)
    ensures row.line == line && row.lineTotal == LineTotal(line)
    ensures row.minus.Update? && row.minus.delta == -1 && Matches(line, row.minus.id, row.minus.name)
    ensures row.plus.Update? && row.plus.delta == 1 && Matches(line, row.plus.id, row.plus.name)
    ensures row.remove.Remove? && Matches(line, row.remove.id, row.remove.name)
  {
    var (id, name) := KeyOf(line);
    Row(line, LineTotal(line), Update(id, -1, name), Update(id, 1, name), Remove(id, name))
  }

  /** `cart.map(...)`: one row per line, in cart order. */
  function Rows(cart: Cart): (rows: seq<Row>)
    ensures |rows| == |cart|
    ensures forall k :: 0 <= k < |rows| ==> rows[k] == RowFor(cart[k])
  {
    if cart == [] then [] else [RowFor(cart[0])] + Rows(cart[1..])
  }

  /** The displayed line totals, added up. */
  function SumRowTotals(rows: seq<Row>): int {
    if rows == [] then 0 else rows[0].lineTotal + SumRowTotals(rows[1..])
  }

  /** The drawer body: the empty notice, or the rows followed by the subtotal and the checkout button. */
  datatype DrawerView = EmptyNotice | Order(rows: seq<Row>, subtotal: int)

  /**
   * The empty notice shows exactly when the cart has no line; otherwise the
   * rows, the subtotal and the checkout action are shown.
   */
  function Render(cart: Cart): (v: DrawerView)
    ensures v.EmptyNotice? <==> |cart| == 0
    ensures v.Order? ==> v.rows == Rows(cart) && v.subtotal == Subtotal(cart)
  {
    if |cart| == 0 then EmptyNotice else Order(Rows(cart), Subtotal(cart))
  }

  /** The subtotal equals the sum of the line totals the drawer displays. */
  lemma {:induction false} SubtotalIsSumOfDisplayedTotals(cart: Cart)
    ensures Subtotal(cart) == SumRowTotals(Rows(cart))
  {
    if cart != [] {
      SubtotalIsSumOfDisplayedTotals(cart[1..]);
      assert Rows(cart)[1..] == Rows(cart[1..]);
    }
  }

  /** A line always carries its own key. */
  lemma LineMatchesOwnKey(line: CartItem)
    ensures Matches(line, KeyOf(line).0, KeyOf(line).1)
  {
  }

  /**
   * The minus button of line k sets that line to `max(1, quantity - 1)`: a
   * line of quantity 1 stays at 1. The cart keeps its length.
   */
  lemma MinusButtonClampsItsLine(cart: Cart, k: nat)
    requires k < |cart|
    ensures var r := Apply(cart, Rows(cart)[k].minus);
            |r| == |cart| && r[k] == cart[k].(quantity := Max(1, cart[k].quantity - 1))
    ensures cart[k].quantity == 1 ==> Apply(cart, Rows(cart)[k].minus)[k] == cart[k]
  {
    LineMatchesOwnKey(cart[k]);
  }

  /** Above quantity 1, the minus button of line k takes exactly one unit price off that line's total. */
  lemma MinusButtonLowersItsTotal(cart: Cart, k: nat)
    requires k < |cart|
    requires cart[k].quantity > 1
    ensures var r := Apply(cart, Rows(cart)[k].minus);
            |r| == |cart| && LineTotal(r[k]) == LineTotal(cart[k]) - UnitPrice(cart[k])
  {
    MinusButtonClampsItsLine(cart, k);
    LineTotalTracksQuantity(cart[k], -1);
  }

  /** The plus button of line k adds exactly one unit to that line. */
  lemma PlusButtonIncrementsItsLine(cart: Cart, k: nat)
    requires k < |cart|
    requires cart[k].quantity >= 0
    ensures var r := Apply(cart, Rows(cart)[k].plus);
            |r| == |cart| && r[k] == cart[k].(quantity := cart[k].quantity + 1)
  {
    LineMatchesOwnKey(cart[k]);
  }

  /** The plus button of line k adds exactly one unit price to that line's total. */
  lemma PlusButtonRaisesItsTotal(cart: Cart, k: nat)
    requires k < |cart|
    requires cart[k].quantity >= 0
    ensures var r := Apply(cart, Rows(cart)[k].plus);
            |r| == |cart| && LineTotal(r[k]) == LineTotal(cart[k]) + UnitPrice(cart[k])
  {
    PlusButtonIncrementsItsLine(cart, k);
    LineTotalTracksQuantity(cart[k], 1);
  }

  /** After the remove button of line k, no line equal to it is left and the cart is shorter. */
  lemma RemoveButtonDeletesItsLine(cart: Cart, k: nat)
    requires k < |cart|
    ensures var r := Apply(cart, Rows(cart)[k].remove);
            cart[k] !in r && |r| < |cart|
  {
    var r := Apply(cart, Rows(cart)[k].remove);
    LineMatchesOwnKey(cart[k]);
    assert HasMatch(cart, cart[k].item.id, cart[k].OptionName());
  }
}
