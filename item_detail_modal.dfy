/**
 * The item detail view: it keeps the chosen size of the item on display,
 * shows the price for that size, and hands the item and the chosen size name
 * to the cart engine's add.
 */
module ItemDetail {
  import opened Optional
  import opened Types
  import opened CartEngine

  /**
   * What the selection effect stores when the item changes: the first option's
   * name, or the empty string for no item or an item without options.
   */
  function DefaultSize(item: Option<MenuItem>): (s: string)
    ensures item.Some? && |item.value.options| > 0 ==> s == item.value.options[0].name
    ensures item.None? || |item.value.options| == 0 ==> s == ""
  {
    if item.Some? && |item.value.options| > 0 then item.value.options[0].name else ""
  }

  /**
   * `currentPrice`: the base price plus the price of the first option named
   * `selectedSize`, or the base price alone when no option has that name.
   */
  function CurrentPrice(item: MenuItem, selectedSize: string): (p: int)
    ensures (forall k :: 0 <= k < |item.options| ==> item.options[k].name != selectedSize) ==> p == item.price
    ensures forall k :: 0 <= k < |item.options| && item.options[k].name == selectedSize
                        && (forall j :: 0 <= j < k ==> item.options[j].name != selectedSize)
                        ==> p == item.price + item.options[k].price
  {
    var found := FindOption(item.options, Some(selectedSize));
    var p := item.price + (if found.Some? then found.value.price else 0);
    assert forall k :: 0 <= k < |item.options| && item.options[k].name == selectedSize
                       && (forall j :: 0 <= j < k ==> item.options[j].name != selectedSize)
                       ==> p == item.price + item.options[k].price by {
      forall k | 0 <= k < |item.options| && item.options[k].name == selectedSize
                 && (forall j :: 0 <= j < k ==> item.options[j].name != selectedSize)
        ensures p == item.price + item.options[k].price
      {
        assert Some(item.options[k].name) == Some(selectedSize);
        var i :| 0 <= i < |item.options| && item.options[i] == found.value && Some(item.options[i].name) == Some(selectedSize)
                 && forall j :: 0 <= j < i ==> Some(item.options[j].name) != Some(selectedSize);
        assert i == k;
      }
    }
    p
  }

  /** The surcharge caption of an option: 'Base' for a zero price, '+€price' otherwise. */
  datatype Label = Base | Surcharge(cents: int)

  function OptionLabel(o: SizeOption): (l: Label)
    ensures l == Base <==> o.price == 0
    ensures l.Surcharge? ==> l.cents == o.price
  {
    if o.price == 0 then Base else Surcharge(o.price)
  }

  /** One size button: the option, whether it is shown as selected, and its caption. */
  datatype Choice = Choice(option: SizeOption, selected: bool, caption: Label)

  /** What the view shows of an item: the current price and one button per option, in order. */
  datatype DetailView = DetailView(item: MenuItem, price: int, choices: seq<Choice>)

  function Choices(options: seq<SizeOption>, selectedSize: string): (cs: seq<Choice>)
    ensures |cs| == |options|
    ensures forall k :: 0 <= k < |cs| ==>
              cs[k].option == options[k] && cs[k].caption == OptionLabel(options[k]) &&
              (cs[k].selected <==> options[k].name == selectedSize)
  {
    if options == [] then []
    else [Choice(options[0], options[0].name == selectedSize, OptionLabel(options[0]))] + Choices(options[1..], selectedSize)
  }

  /**
   * Nothing is drawn without an item. With one, its current price is shown and
   * exactly the options named `selectedSize` are highlighted.
   */
  function Render(item: Option<MenuItem>, selectedSize: string): (v: Option<DetailView>)
    ensures v.None? <==> item.None?
    ensures v.Some? ==> v.value.item == item.value && v.value.price == CurrentPrice(item.value, selectedSize)
    ensures v.Some? ==> |v.value.choices| == |item.value.options|
    ensures v.Some? ==> forall k :: 0 <= k < |v.value.choices| ==>
              v.value.choices[k].option == item.value.options[k] &&
              (v.value.choices[k].selected <==> item.value.options[k].name == selectedSize)
  {
    if item.None? then None
    else Some(DetailView(item.value, CurrentPrice(item.value, selectedSize), Choices(item.value.options, selectedSize)))
  }

  /**
   * Right after an item with options is shown, its first option is highlighted
   * and the price is the base price plus that option's surcharge.
   */
  lemma DefaultSelectionIsFirstOption(item: MenuItem)
    requires |item.options| > 0
    ensures var v := Render(Some(item), DefaultSize(Some(item)));
            v.Some? && v.value.choices[0].selected &&
            v.value.price == item.price + item.options[0].price
  {
  }

  /** The state of the detail view: the chosen size name. */
  class ItemDetailModal {
    var selectedSize: string

    constructor ()
      ensures selectedSize == ""
    {
      selectedSize := "";
    }

    /** The effect that runs whenever the displayed item changes. */
    method ItemChanged(item: Option<MenuItem>)
      modifies this
      ensures selectedSize == DefaultSize(item)
    {
      if item.Some? && |item.value.options| > 0 {
        selectedSize := item.value.options[0].name;
      } else {
        selectedSize := "";
      }
    }

    /** A click on the k-th size button. */
    method ChooseOption(item: MenuItem, k: nat)
      requires k < |item.options|
      modifies this
      ensures selectedSize == item.options[k].name
    {
      selectedSize := item.options[k].name;
    }

    /**
     * The add button, first half: the name handed to `onAddToCart` is the
     * chosen size, passed as a string even when it is empty.
     */
    method AddToOrder() returns (name: Option<string>)
      ensures name == Some(selectedSize)
    {
      name := Some(selectedSize);
    }
  }
}
