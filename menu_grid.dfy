/**
 * The menu grid: a row of category buttons, the active one of which filters
 * the cards, and a card per visible item that opens the item's detail view.
 */
module Menu {
  import opened Types
  import opened Sequences

  /** A category button: every item, or the items of one category. */
  datatype CategoryFilter = All | Only(category: Category)

  /** The buttons, in the order they are drawn. */
  const Categories: seq<CategoryFilter> :=
    [All, Only(Pizzas), Only(Kebabs), Only(Boxes), Only(Burgers), Only(Chips), Only(Tenders), Only(Meals)]

  /** The list starts with 'ALL' and then names every category exactly once. */
  lemma CategoriesListEachOnce()
    ensures |Categories| == 8 && Categories[0] == All
    ensures forall c: Category :: Only(c) in Categories[1..]
    ensures forall i, j :: 0 <= i < j < |Categories| ==> Categories[i] != Categories[j]
  {
    forall c: Category ensures Only(c) in Categories[1..] {
      match c
      case Pizzas => assert Categories[1..][0] == Only(c);
      case Kebabs => assert Categories[1..][1] == Only(c);
      case Boxes => assert Categories[1..][2] == Only(c);
      case Burgers => assert Categories[1..][3] == Only(c);
      case Chips => assert Categories[1..][4] == Only(c);
      case Tenders => assert Categories[1..][5] == Only(c);
      case Meals => assert Categories[1..][6] == Only(c);
    }
  }

  /** The number of items of category `c`. */
  function CountOf(items: seq<MenuItem>, c: Category): nat {
    if items == [] then 0 else (if items[0].category == c then 1 else 0) + CountOf(items[1..], c)
  }

  /** `items.filter(item => item.category === c)`. */
  function FilterCategory(items: seq<MenuItem>, c: Category): (r: seq<MenuItem>)
    ensures |r| == CountOf(items, c)
    ensures forall k :: 0 <= k < |r| ==> r[k].category == c && r[k] in items
    ensures forall k :: 0 <= k < |items| && items[k].category == c ==> items[k] in r
    ensures IsSubsequence(r, items)
  {
    if items == [] then []
    else
      var rest := FilterCategory(items[1..], c);
      assert forall k :: 0 <= k < |items| && k > 0 ==> items[k] == items[1..][k - 1];
      if items[0].category == c then
        var r := [items[0]] + rest;
        assert r[1..] == rest;
        r
      else
        assert IsSubsequence(rest, items) by {
          if rest != [] { assert IsSubsequence(rest, items[1..]); }
        }
        rest
  }

  /**
   * `filteredItems`: with 'ALL' the input list itself; otherwise exactly the
   * items of the chosen category, in input order.
   */
  function FilteredItems(items: seq<MenuItem>, active: CategoryFilter): (r: seq<MenuItem>)
    ensures active == All ==> r == items
    ensures active.Only? ==> forall k :: 0 <= k < |r| ==> r[k].category == active.category
    ensures active.Only? ==> forall k :: 0 <= k < |items| && items[k].category == active.category ==> items[k] in r
    ensures active.Only? ==> |r| == CountOf(items, active.category)
    ensures IsSubsequence(r, items)
  {
    if active == All then
      assert IsSubsequence(items, items) by { SubsequenceOfItself(items); }
      items
    else FilterCategory(items, active.category)
  }

  lemma {:induction false} SubsequenceOfItself<T>(s: seq<T>)
    ensures IsSubsequence(s, s)
  {
    if s != [] {
      SubsequenceOfItself(s[1..]);
    }
  }

  /** The state of the grid: the active category button. */
  class MenuGrid {
    var activeCategory: CategoryFilter

    constructor ()
      ensures activeCategory == All
    {
      activeCategory := All;
    }

    /** A click on a category button. */
    method SelectCategory(cat: CategoryFilter)
      modifies this
      ensures activeCategory == cat
    {
      activeCategory := cat;
    }

    /**
     * A click on the k-th visible card: the item handed to `onViewDetails` is
     * that card's item, one of the input items, of the active category.
     */
    method ClickCard(items: seq<MenuItem>, k: nat) returns (item: MenuItem)
      requires k < |FilteredItems(items, activeCategory)|
      ensures item == FilteredItems(items, activeCategory)[k]
      ensures item in items
      ensures activeCategory.Only? ==> item.category == activeCategory.category
    {
      item := FilteredItems(items, activeCategory)[k];
      if activeCategory == All {
        assert item == items[k];
      } else {
        assert item in FilterCategory(items, activeCategory.category);
      }
    }
  }
}
