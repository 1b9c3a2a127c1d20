/**
 * The cart engine of the storefront's top-level component: the transforms that
 * `handleAddToCart`, `handleUpdateQuantity`, `handleRemoveItem` and
 * `handleCheckoutConfirm` hand to `setCart`, and the `cartCount` badge value.
 * Every transform is a function from the previous cart to the next one.
 */
module CartEngine {
  import opened Optional
  import opened Types
  import opened Sequences

  type Cart = seq<CartItem>

  /**
   * Lines are targeted by the key `(id, selectedOption?.name)`. A line without
   * an option answers only to the absent name (`undefined`), a line with one
   * only to that option's name; `""` is never the name of an option-less line.
   */
  predicate Matches(line: CartItem, id: string, name: Option<string>): (b: bool)
    ensures b <==> line.item.id == id &&
                   (line.selectedOption.None? <==> name.None?) &&
                   (line.selectedOption.Some? && name.Some? ==> line.selectedOption.value.name == name.value)
  {
    line.item.id == id && line.OptionName() == name
  }

  ghost predicate HasMatch(cart: Cart, id: string, name: Option<string>) {
    exists k :: 0 <= k < |cart| && Matches(cart[k], id, name)
  }

  /** Every line has a quantity of at least one. */
  predicate AllPositive(cart: Cart) {
    forall k :: 0 <= k < |cart| ==> cart[k].quantity >= 1
  }

  function Max(a: int, b: int): int {
    if a >= b then a else b
  }

  // ---------------------------------------------------------------- counting

  /** Reference sum of the quantities of all lines. */
  function SumQuantities(cart: Cart): int {
    if cart == [] then 0 else cart[0].quantity + SumQuantities(cart[1..])
  }

  /** The number of lines that carry the key `(id, name)`. */
  function MatchCount(cart: Cart, id: string, name: Option<string>): (n: nat)
    ensures n <= |cart|
    ensures n == 0 <==> !HasMatch(cart, id, name)
  {
    if cart == [] then 0
    else
      assert HasMatch(cart[1..], id, name) ==> HasMatch(cart, id, name) by {
        if HasMatch(cart[1..], id, name) {
          var k :| 0 <= k < |cart[1..]| && Matches(cart[1..][k], id, name);
          assert Matches(cart[k + 1], id, name);
        }
      }
      (if Matches(cart[0], id, name) then 1 else 0) + MatchCount(cart[1..], id, name)
  }

  /** The summed quantity of the lines that carry the key `(id, name)`. */
  function MatchedQuantity(cart: Cart, id: string, name: Option<string>): int {
    if cart == [] then 0
    else (if Matches(cart[0], id, name) then cart[0].quantity else 0) + MatchedQuantity(cart[1..], id, name)
  }

  /** The left fold `cart.reduce((sum, item) => sum + item.quantity, 0)`, from an accumulator. */
  function CountFrom(sum: int, cart: Cart): int
    decreases |cart|
  {
    if cart == [] then sum else CountFrom(sum + cart[0].quantity, cart[1..])
  }

  lemma {:induction false} CountFromIsSum(sum: int, cart: Cart)
    ensures CountFrom(sum, cart) == sum + SumQuantities(cart)
    decreases |cart|
  {
    if cart != [] {
      CountFromIsSum(sum + cart[0].quantity, cart[1..]);
    }
  }

  lemma {:induction false} PositiveSumAtLeastLength(cart: Cart)
    requires AllPositive(cart)
    ensures SumQuantities(cart) >= |cart|
  {
    if cart != [] {
      PositiveSumAtLeastLength(cart[1..]);
    }
  }

  /**
   * `cartCount`: the summed quantity of all lines, 0 for the empty cart; with
   * positive quantities it is at least the number of lines, so it is positive
   * exactly when the cart is non-empty.
   */
  function CartCount(cart: Cart): (n: int)
    ensures n == SumQuantities(cart)
    ensures cart == [] ==> n == 0
    ensures AllPositive(cart) ==> n >= |cart| && (n > 0 <==> |cart| > 0)
  {
    CountFromIsSum(0, cart);
    assert AllPositive(cart) ==> CountFrom(0, cart) >= |cart| by {
      if AllPositive(cart) { PositiveSumAtLeastLength(cart); }
    }
    CountFrom(0, cart)
  }

  lemma {:induction false} SumQuantitiesAppend(a: Cart, b: Cart)
    ensures SumQuantities(a + b) == SumQuantities(a) + SumQuantities(b)
  {
    if a != [] {
      assert (a + b)[0] == a[0];
      assert (a + b)[1..] == a[1..] + b;
      SumQuantitiesAppend(a[1..], b);
    } else {
      assert a + b == b;
    }
  }

  // ---------------------------------------------------------------- finding

  /** `prev.find(i => i.id === id && i.selectedOption?.name === name)`. */
  function Find(cart: Cart, id: string, name: Option<string>): (r: Option<CartItem>)
    ensures r.Some? <==> HasMatch(cart, id, name)
    ensures r.Some? ==> r.value in cart && Matches(r.value, id, name)
  {
    if cart == [] then None
    else if Matches(cart[0], id, name) then Some(cart[0])
    else
      assert HasMatch(cart, id, name) ==> HasMatch(cart[1..], id, name) by {
        if HasMatch(cart, id, name) {
          var k :| 0 <= k < |cart| && Matches(cart[k], id, name);
          assert k > 0 && Matches(cart[1..][k - 1], id, name);
        }
      }
      assert HasMatch(cart[1..], id, name) ==> HasMatch(cart, id, name) by {
        if HasMatch(cart[1..], id, name) {
          var k :| 0 <= k < |cart[1..]| && Matches(cart[1..][k], id, name);
          assert Matches(cart[k + 1], id, name);
        }
      }
      Find(cart[1..], id, name)
  }

  /**
   * `options.find(o => o.name === name)`: the first option with that name. An
   * absent name (`undefined`) equals no option's name.
   */
  function FindOption(options: seq<SizeOption>, name: Option<string>): (r: Option<SizeOption>)
    ensures r.Some? ==> exists k :: 0 <= k < |options| && options[k] == r.value && Some(options[k].name) == name
                                    && forall j :: 0 <= j < k ==> Some(options[j].name) != name
    ensures r.None? ==> forall k :: 0 <= k < |options| ==> Some(options[k].name) != name
  {
    if options == [] then None
    else if Some(options[0].name) == name then Some(options[0])
    else
      var r := FindOption(options[1..], name);
      assert r.Some? ==> exists k :: 0 <= k < |options| && options[k] == r.value && Some(options[k].name) == name
                                     && forall j :: 0 <= j < k ==> Some(options[j].name) != name by {
        if r.Some? {
          var k :| 0 <= k < |options[1..]| && options[1..][k] == r.value && Some(options[1..][k].name) == name
                   && forall j :: 0 <= j < k ==> Some(options[1..][j].name) != name;
          assert forall j :: 0 <= j < k + 1 ==> Some(options[j].name) != name by {
            forall j | 0 <= j < k + 1 ensures Some(options[j].name) != name {
              if j > 0 { assert options[j] == options[1..][j - 1]; }
            }
          }
        }
      }
      assert r.None? ==> forall k :: 0 <= k < |options| ==> Some(options[k].name) != name by {
        if r.None? {
          forall k | 0 <= k < |options| ensures Some(options[k].name) != name {
            if k > 0 { assert options[k] == options[1..][k - 1]; }
          }
        }
      }
      r
  }

  /** Some option of the item is named `name`. */
  ghost predicate NamesAnOption(item: MenuItem, name: Option<string>) {
    exists k :: 0 <= k < |item.options| && Some(item.options[k].name) == name
  }

  /**
   * The option a new line gets: the option named `name`, else the item's first
   * option, else none.
   */
  function ResolveOption(item: MenuItem, name: Option<string>): (r: Option<SizeOption>)
    ensures r.None? <==> |item.options| == 0
    ensures r.Some? ==> r.value in item.options
    ensures NamesAnOption(item, name) ==>
              exists k :: 0 <= k < |item.options| && r == Some(item.options[k]) && Some(item.options[k].name) == name
                          && forall j :: 0 <= j < k ==> Some(item.options[j].name) != name
    ensures !NamesAnOption(item, name) && |item.options| > 0 ==> r == Some(item.options[0])
  {
    var found := FindOption(item.options, name);
    if found.Some? then found
    else if |item.options| > 0 then Some(item.options[0])
    else None
  }

  /**
   * The line `{ ...item, quantity: 1, selectedOption }` that an unmatched add
   * appends: one unit of the item, with one of its own options unless it has
   * none, and named `name` whenever some option is.
   */
  function NewLine(item: MenuItem, name: Option<string>): (l: CartItem)
    ensures l.item == item && l.quantity == 1
    ensures l.selectedOption.None? <==> |item.options| == 0
    ensures l.selectedOption.Some? ==> l.selectedOption.value in item.options
    ensures NamesAnOption(item, name) ==> l.OptionName() == name
  {
    CartItem(item, 1, ResolveOption(item, name))
  }

  // ---------------------------------------------------------------- add

  /** The `prev.map` of a matched add: every matching line gains one unit, the others stay. */
  function IncrementMatching(cart: Cart, id: string, name: Option<string>): (r: Cart)
    ensures |r| == |cart|
    ensures forall k :: 0 <= k < |r| ==>
              r[k] == if Matches(cart[k], id, name) then cart[k].(quantity := cart[k].quantity + 1) else cart[k]
  {
    if cart == [] then []
    else
      var head := if Matches(cart[0], id, name) then cart[0].(quantity := cart[0].quantity + 1) else cart[0];
      [head] + IncrementMatching(cart[1..], id, name)
  }

  /**
   * `handleAddToCart(item, name)`: when some line carries the key
   * `(item.id, name)`, each such line gains exactly one unit and nothing else
   * changes; otherwise one line of quantity 1 with the resolved option is
   * appended after the untouched earlier lines.
   */
  function AddToCart(cart: Cart, item: MenuItem, name: Option<string>): (r: Cart)
    ensures HasMatch(cart, item.id, name) ==>
              |r| == |cart| &&
              forall k :: 0 <= k < |r| ==>
                r[k] == if Matches(cart[k], item.id, name) then cart[k].(quantity := cart[k].quantity + 1) else cart[k]
    ensures !HasMatch(cart, item.id, name) ==>
              |r| == |cart| + 1 && r[..|cart|] == cart &&
              r[|cart|].item == item && r[|cart|].quantity == 1 &&
              r[|cart|].selectedOption == ResolveOption(item, name)
  {
    if Find(cart, item.id, name).Some? then IncrementMatching(cart, item.id, name)
    else cart + [NewLine(item, name)]
  }

  lemma {:induction false} IncrementAddsMatchCount(cart: Cart, id: string, name: Option<string>)
    ensures SumQuantities(IncrementMatching(cart, id, name)) == SumQuantities(cart) + MatchCount(cart, id, name)
  {
    if cart != [] {
      var r := IncrementMatching(cart, id, name);
      assert r[1..] == IncrementMatching(cart[1..], id, name);
      IncrementAddsMatchCount(cart[1..], id, name);
    }
  }

  /** The count grows by the number of matching lines, or by one when a line is appended. */
  lemma AddToCartCount(cart: Cart, item: MenuItem, name: Option<string>)
    ensures CartCount(AddToCart(cart, item, name))
            == CartCount(cart) + (if HasMatch(cart, item.id, name) then MatchCount(cart, item.id, name) else 1)
  {
    if HasMatch(cart, item.id, name) {
      IncrementAddsMatchCount(cart, item.id, name);
    } else {
      SumQuantitiesAppend(cart, [NewLine(item, name)]);
    }
  }

  /**
   * The name passed to add is the key the new line ends up with exactly when
   * it names one of the item's options, or it is absent and the item has no
   * options.
   */
  ghost predicate KeyResolvesToItself(item: MenuItem, name: Option<string>) {
    (name.Some? && NamesAnOption(item, name)) || (name.None? && |item.options| == 0)
  }

  lemma NewLineKeyIff(item: MenuItem, name: Option<string>)
    ensures Matches(NewLine(item, name), item.id, name) <==> KeyResolvesToItself(item, name)
  {
    var o := ResolveOption(item, name);
    if !NamesAnOption(item, name) && |item.options| > 0 {
      assert o == Some(item.options[0]);
      assert Some(item.options[0].name) != name;
    }
  }

  /**
   * Adding the same item with the same name twice, to a cart without a line of
   * that key, yields ONE line of quantity 2 exactly when the key resolves to
   * itself, and otherwise TWO lines of quantity 1 (an empty-string or unknown
   * name, or an absent name for an item that has options).
   */
  lemma AddTwice(cart: Cart, item: MenuItem, name: Option<string>)
    requires !HasMatch(cart, item.id, name)
    ensures KeyResolvesToItself(item, name) ==>
              AddToCart(AddToCart(cart, item, name), item, name) == cart + [NewLine(item, name).(quantity := 2)]
    ensures !KeyResolvesToItself(item, name) ==>
              AddToCart(AddToCart(cart, item, name), item, name) == cart + [NewLine(item, name), NewLine(item, name)]
  {
    var once := AddToCart(cart, item, name);
    assert once == cart + [NewLine(item, name)];
    NewLineKeyIff(item, name);
    if KeyResolvesToItself(item, name) {
      assert Matches(once[|cart|], item.id, name);
      var twice := AddToCart(once, item, name);
      assert |twice| == |cart| + 1;
      forall k | 0 <= k < |twice|
        ensures twice[k] == (cart + [NewLine(item, name).(quantity := 2)])[k]
      {
        if k < |cart| {
          assert once[k] == cart[k];
          assert !Matches(cart[k], item.id, name);
        }
      }
    } else {
      assert !HasMatch(once, item.id, name) by {
        forall k | 0 <= k < |once| ensures !Matches(once[k], item.id, name) {
          if k < |cart| { assert once[k] == cart[k]; }
        }
      }
    }
  }

  // ---------------------------------------------------------------- update

  /**
   * `handleUpdateQuantity(id, delta, name)`: every line carrying the key is set
   * to `max(1, quantity + delta)`, so it never drops below one; the length and
   * every other line are unchanged.
   */
  function UpdateQuantity(cart: Cart, id: string, delta: int, name: Option<string>): (r: Cart)
    ensures |r| == |cart|
    ensures forall k :: 0 <= k < |r| ==>
              r[k] == if Matches(cart[k], id, name) then cart[k].(quantity := Max(1, cart[k].quantity + delta)) else cart[k]
    ensures forall k :: 0 <= k < |r| && Matches(cart[k], id, name) ==> r[k].quantity >= 1
  {
    if cart == [] then []
    else
      var head := if Matches(cart[0], id, name) then cart[0].(quantity := Max(1, cart[0].quantity + delta)) else cart[0];
      [head] + UpdateQuantity(cart[1..], id, delta, name)
  }

  /** An update whose key matches no line leaves the cart as it was. */
  lemma UpdateWithoutMatchIsIdentity(cart: Cart, id: string, delta: int, name: Option<string>)
    requires !HasMatch(cart, id, name)
    ensures UpdateQuantity(cart, id, delta, name) == cart
  {
    var r := UpdateQuantity(cart, id, delta, name);
    forall k | 0 <= k < |r| ensures r[k] == cart[k] {
      assert !Matches(cart[k], id, name);
    }
  }

  // ---------------------------------------------------------------- remove

  /**
   * `handleRemoveItem(id, name)`: the lines carrying the key are deleted and
   * no other; the rest keep their relative order.
   */
  function RemoveItem(cart: Cart, id: string, name: Option<string>): (r: Cart)
    ensures |r| == |cart| - MatchCount(cart, id, name)
    ensures forall k :: 0 <= k < |r| ==> !Matches(r[k], id, name) && r[k] in cart
    ensures forall k :: 0 <= k < |cart| && !Matches(cart[k], id, name) ==> cart[k] in r
    ensures IsSubsequence(r, cart)
  {
    if cart == [] then []
    else
      var rest := RemoveItem(cart[1..], id, name);
      assert forall k :: 0 <= k < |cart| && k > 0 ==> cart[k] == cart[1..][k - 1];
      if Matches(cart[0], id, name) then
        assert IsSubsequence(rest, cart) by {
          if rest != [] { assert IsSubsequence(rest, cart[1..]); }
        }
        rest
      else
        var r := [cart[0]] + rest;
        assert r[1..] == rest;
        r
  }

  /** Removing a key no line carries leaves the cart as it was. */
  lemma {:induction false} RemoveWithoutMatchIsIdentity(cart: Cart, id: string, name: Option<string>)
    requires !HasMatch(cart, id, name)
    ensures RemoveItem(cart, id, name) == cart
  {
    if cart != [] {
      assert !Matches(cart[0], id, name);
      assert !HasMatch(cart[1..], id, name) by {
        forall k | 0 <= k < |cart[1..]| ensures !Matches(cart[1..][k], id, name) {
          assert cart[1..][k] == cart[k + 1];
        }
      }
      RemoveWithoutMatchIsIdentity(cart[1..], id, name);
    }
  }

  /** Removing twice removes no more than removing once. */
  lemma RemoveIsIdempotent(cart: Cart, id: string, name: Option<string>)
    ensures RemoveItem(RemoveItem(cart, id, name), id, name) == RemoveItem(cart, id, name)
  {
    RemoveWithoutMatchIsIdentity(RemoveItem(cart, id, name), id, name);
  }

  /** Removal takes exactly the matching lines' quantity off the count. */
  lemma {:induction false} RemoveItemCount(cart: Cart, id: string, name: Option<string>)
    ensures CartCount(RemoveItem(cart, id, name)) == CartCount(cart) - MatchedQuantity(cart, id, name)
  {
    if cart != [] {
      RemoveItemCount(cart[1..], id, name);
      if !Matches(cart[0], id, name) {
        var r := RemoveItem(cart, id, name);
        assert r[1..] == RemoveItem(cart[1..], id, name);
      }
    }
  }

  /** Removal distributes over concatenation: it is a filter, so order is kept piecewise. */
  lemma {:induction false} RemoveDistributes(a: Cart, b: Cart, id: string, name: Option<string>)
    ensures RemoveItem(a + b, id, name) == RemoveItem(a, id, name) + RemoveItem(b, id, name)
  {
    if a != [] {
      var ab := a + b;
      assert ab[0] == a[0];
      assert ab[1..] == a[1..] + b;
      RemoveDistributes(a[1..], b, id, name);
      if Matches(a[0], id, name) {
        assert RemoveItem(ab, id, name) == RemoveItem(ab[1..], id, name);
        assert RemoveItem(a, id, name) == RemoveItem(a[1..], id, name);
      } else {
        assert RemoveItem(ab, id, name) == [a[0]] + RemoveItem(ab[1..], id, name);
        assert RemoveItem(a, id, name) == [a[0]] + RemoveItem(a[1..], id, name);
      }
    } else {
      assert a + b == b;
    }
  }

  // ---------------------------------------------------------------- sessions

  /** `handleCheckoutConfirm`: the cart becomes empty. */
  function ConfirmCheckout(cart: Cart): (r: Cart)
    ensures r == [] && CartCount(r) == 0
  {
    []
  }

  /** One cart mutation, as the storefront's handlers issue them. */
  datatype CartAction =
    | Add(item: MenuItem, name: Option<string>)
    | Update(id: string, delta: int, name: Option<string>)
    | Remove(id: string, name: Option<string>)
    | Confirm

  function Apply(cart: Cart, action: CartAction): Cart {
    match action
    case Add(item, name) => AddToCart(cart, item, name)
    case Update(id, delta, name) => UpdateQuantity(cart, id, delta, name)
    case Remove(id, name) => RemoveItem(cart, id, name)
    case Confirm => ConfirmCheckout(cart)
  }

  /** The cart after the actions, applied in order. */
  function Run(cart: Cart, actions: seq<CartAction>): Cart
    decreases |actions|
  {
    if actions == [] then cart else Run(Apply(cart, actions[0]), actions[1..])
  }

  /** Each mutation keeps every quantity at least one. */
  lemma ApplyKeepsPositive(cart: Cart, action: CartAction)
    requires AllPositive(cart)
    ensures AllPositive(Apply(cart, action))
  {
    var r := Apply(cart, action);
    match action
    case Add(item, name) =>
      if !HasMatch(cart, item.id, name) {
        forall k | 0 <= k < |r| ensures r[k].quantity >= 1 {
          if k < |cart| { assert r[k] == r[..|cart|][k]; }
        }
      }
    case Update(id, delta, name) =>
    case Remove(id, name) =>
      forall k | 0 <= k < |r| ensures r[k].quantity >= 1 {
        var j :| 0 <= j < |cart| && cart[j] == r[k];
      }
    case Confirm =>
  }

  /** Whatever sequence of adds, updates, removals and confirmations runs, quantities stay at least one. */
  lemma {:induction false} RunKeepsPositive(cart: Cart, actions: seq<CartAction>)
    requires AllPositive(cart)
    ensures AllPositive(Run(cart, actions))
    decreases |actions|
  {
    if actions != [] {
      ApplyKeepsPositive(cart, actions[0]);
      RunKeepsPositive(Apply(cart, actions[0]), actions[1..]);
    }
  }

  /** Starting from the initial empty cart, every line of every reachable cart has quantity at least one. */
  lemma ReachableCartsArePositive(actions: seq<CartAction>)
    ensures AllPositive(Run([], actions))
  {
    RunKeepsPositive([], actions);
  }
}
