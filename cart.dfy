// The cart page of the front end (CartPage.jsx): row keys, totals, the
// selection and loading sets, and the checkout guard. The cart itself is
// owned by the page's parent; the page reads it and asks the parent's
// `updateQuantity` / `removeFromCart` to change it.

module Cart {
  import opened Outcomes
  import Text
  import Positions

  /** One cart row; `price` is in centavos. */
  datatype LineItem = LineItem(
    id: nat,
    size: Option<string>,
    name: string,
    price: int,
    quantity: int,
    image: Option<string>)

  const NO_SIZE: string := "no-size"

  /** `size || 'no-size'`: an absent or empty size falls back to the sentinel. */
  function SizeOrSentinel(size: Option<string>): string {
    match size
    case None => NO_SIZE
    case Some(s) => if s == "" then NO_SIZE else s
  }

  /** The row key `${id}-${size || 'no-size'}`. */
  function ItemKey(id: nat, size: Option<string>): string {
    Text.NatToString(id) + "-" + SizeOrSentinel(size)
  }

  function KeyOf(item: LineItem): string {
    ItemKey(item.id, item.size)
  }

  /** An absent size and an empty size give the same row key. */
  lemma KeyTreatsEmptySizeAsAbsent(id: nat)
    ensures ItemKey(id, None) == ItemKey(id, Some(""))
  {
  }

  /** Position of the first `c` in `s`, or `|s|` when there is none. */
  function FirstIndexOf(s: string, c: char): nat {
    if s == [] then 0 else if s[0] == c then 0 else 1 + FirstIndexOf(s[1..], c)
  }

  lemma {:induction false} FirstIndexAfterPrefix(x: string, y: string, c: char)
    requires c !in x
    ensures FirstIndexOf(x + [c] + y, c) == |x|
  {
    if x != [] {
      assert (x + [c] + y)[1..] == x[1..] + [c] + y;
      assert x[0] in x;
      FirstIndexAfterPrefix(x[1..], y, c);
    }
  }

  lemma SplitAtFirstDash(a: string, b: string, c: string, d: string)
    requires '-' !in a && '-' !in c
    requires a + "-" + b == c + "-" + d
    ensures a == c && b == d
  {
    var s := a + "-" + b;
    FirstIndexAfterPrefix(a, b, '-');
    FirstIndexAfterPrefix(c, d, '-');
    assert a == s[..|a|];
    assert c == s[..|c|];
    assert b == s[|a| + 1..];
    assert d == s[|c| + 1..];
  }

  /** Two rows share a key exactly when they have the same product id and the
      same size after the `'no-size'` fallback. */
  lemma KeyInjective(id1: nat, size1: Option<string>, id2: nat, size2: Option<string>)
    ensures ItemKey(id1, size1) == ItemKey(id2, size2) <==>
              id1 == id2 && SizeOrSentinel(size1) == SizeOrSentinel(size2)
  {
    if ItemKey(id1, size1) == ItemKey(id2, size2) {
      var n1, n2 := Text.NatToString(id1), Text.NatToString(id2);
      assert '-' !in n1 && '-' !in n2 by {
        assert forall i :: 0 <= i < |n1| ==> '0' <= n1[i] <= '9';
        assert forall i :: 0 <= i < |n2| ==> '0' <= n2[i] <= '9';
      }
      SplitAtFirstDash(n1, SizeOrSentinel(size1), n2, SizeOrSentinel(size2));
      Text.NatToStringInjective(id1, id2);
    }
  }

  /** A size spelled literally `"no-size"` shares its key with a size-less row
      of the same product. */
  lemma KeySentinelCollision(id: nat)
    ensures ItemKey(id, Some(NO_SIZE)) == ItemKey(id, None)
  {
  }

  // ----- totals

  function LineTotal(item: LineItem): int {
    item.price * item.quantity
  }

  /** `cart.reduce((total, item) => total + item.price * item.quantity, 0)` */
  function CalculateTotal(cart: seq<LineItem>): int {
    if cart == [] then 0 else CalculateTotal(cart[..|cart| - 1]) + LineTotal(cart[|cart| - 1])
  }

  /** `cart.filter(item => selectedItems.has(key(item)))`: the selected rows, in cart order. */
  function SelectedCartItems(cart: seq<LineItem>, selected: set<string>): (r: seq<LineItem>)
    ensures |r| <= |cart|
    ensures forall x :: x in r ==> x in cart && KeyOf(x) in selected
    ensures forall i :: 0 <= i < |cart| && KeyOf(cart[i]) in selected ==> cart[i] in r
  {
    if cart == [] then []
    else
      var last := cart[|cart| - 1];
      SelectedCartItems(cart[..|cart| - 1], selected) + (if KeyOf(last) in selected then [last] else [])
  }

  /** A row is kept by the filter when its key is selected. */
  function IsSelected(selected: set<string>): LineItem -> bool {
    (item: LineItem) => KeyOf(item) in selected
  }

  /** The selected rows are the cart's rows at the selected positions, in
      cart order: the positions strictly increase, each result row is the
      cart row at its position, and a position is used exactly when that
      row's key is selected. */
  lemma {:induction false} SelectedCartItemsInOrder(cart: seq<LineItem>, selected: set<string>)
    returns (positions: seq<nat>)
    ensures Positions.KeptInOrder(cart, IsSelected(selected), SelectedCartItems(cart, selected), positions)
    decreases |cart|
  {
    if cart == [] {
      positions := [];
    } else {
      var init := cart[..|cart| - 1];
      var item := cart[|cart| - 1];
      assert cart == init + [item];
      var before := SelectedCartItemsInOrder(init, selected);
      Positions.KeptInOrderStep(init, item, IsSelected(selected), SelectedCartItems(init, selected), before);
      positions := if KeyOf(item) in selected then before + [|init|] else before;
    }
  }

  /** The page's `selectedTotal`: filter, then reduce. */
  function SelectedTotal(cart: seq<LineItem>, selected: set<string>): int {
    CalculateTotal(SelectedCartItems(cart, selected))
  }

  function CartKeys(cart: seq<LineItem>): set<string> {
    set x | x in cart :: KeyOf(x)
  }

  lemma {:induction false} CalculateTotalAppend(a: seq<LineItem>, b: seq<LineItem>)
    ensures CalculateTotal(a + b) == CalculateTotal(a) + CalculateTotal(b)
    decreases |b|
  {
    if b == [] {
      assert a + b == a;
    } else {
      var b' := b[..|b| - 1];
      assert (a + b)[..|a + b| - 1] == a + b';
      CalculateTotalAppend(a, b');
    }
  }

  /** Nothing selected, nothing to pay. */
  lemma SelectedTotalEmptySelection(cart: seq<LineItem>)
    ensures SelectedTotal(cart, {}) == 0
  {
    NothingSelected(cart);
  }

  lemma {:induction false} NothingSelected(cart: seq<LineItem>)
    ensures SelectedCartItems(cart, {}) == []
  {
    if cart != [] {
      NothingSelected(cart[..|cart| - 1]);
    }
  }

  /** The whole cart is split between the selected rows and the others. */
  lemma {:induction false} TotalSplitsBySelection(cart: seq<LineItem>, selected: set<string>)
    ensures CalculateTotal(cart) == SelectedTotal(cart, selected) + SelectedTotal(cart, CartKeys(cart) - selected)
  {
    TotalSplitsOver(cart, selected, CartKeys(cart));
  }

  lemma {:induction false} TotalSplitsOver(cart: seq<LineItem>, selected: set<string>, keys: set<string>)
    requires CartKeys(cart) <= keys
    ensures CalculateTotal(cart) == SelectedTotal(cart, selected) + SelectedTotal(cart, keys - selected)
    decreases |cart|
  {
    if cart != [] {
      var init, last := cart[..|cart| - 1], cart[|cart| - 1];
      assert last in cart;
      forall x | x in init
        ensures KeyOf(x) in keys
      {
        assert x in cart;
      }
      TotalSplitsOver(init, selected, keys);
      var s1 := SelectedCartItems(init, selected);
      var s2 := SelectedCartItems(init, keys - selected);
      assert CalculateTotal(cart) == CalculateTotal(init) + LineTotal(last);
      if KeyOf(last) in selected {
        assert SelectedCartItems(cart, selected) == s1 + [last];
        assert SelectedCartItems(cart, keys - selected) == s2;
        CalculateTotalAppend(s1, [last]);
      } else {
        assert SelectedCartItems(cart, selected) == s1;
        assert SelectedCartItems(cart, keys - selected) == s2 + [last];
        CalculateTotalAppend(s2, [last]);
      }
    }
  }

  /** Selected keys that match no cart row add nothing to the selected total. */
  lemma {:induction false} SelectedTotalIgnoresDanglingKeys(cart: seq<LineItem>, selected: set<string>)
    ensures SelectedTotal(cart, selected) == SelectedTotal(cart, selected * CartKeys(cart))
  {
    SelectedItemsIgnoreDanglingKeys(cart, selected, CartKeys(cart));
  }

  lemma {:induction false} SelectedItemsIgnoreDanglingKeys(cart: seq<LineItem>, selected: set<string>, keys: set<string>)
    requires CartKeys(cart) <= keys
    ensures SelectedCartItems(cart, selected) == SelectedCartItems(cart, selected * keys)
    decreases |cart|
  {
    if cart != [] {
      var init := cart[..|cart| - 1];
      assert cart[|cart| - 1] in cart;
      forall x | x in init
        ensures KeyOf(x) in keys
      {
        assert x in cart;
      }
      SelectedItemsIgnoreDanglingKeys(init, selected, keys);
    }
  }

  /** Adding a row that is not selected leaves the selected total as it was;
      adding a selected row adds its line total. */
  lemma SelectedTotalAppend(cart: seq<LineItem>, selected: set<string>, item: LineItem)
    ensures SelectedTotal(cart + [item], selected) ==
              SelectedTotal(cart, selected) + (if KeyOf(item) in selected then LineTotal(item) else 0)
  {
    var longer := cart + [item];
    assert longer[..|longer| - 1] == cart && longer[|longer| - 1] == item;
    var before := SelectedCartItems(cart, selected);
    if KeyOf(item) in selected {
      assert SelectedCartItems(longer, selected) == before + [item];
      CalculateTotalAppend(before, [item]);
      assert CalculateTotal([item]) == CalculateTotal([]) + LineTotal(item);
    } else {
      assert SelectedCartItems(longer, selected) == before;
    }
  }

  /** With every row selected the selected total is the cart total. */
  lemma SelectedTotalAll(cart: seq<LineItem>, selected: set<string>)
    requires CartKeys(cart) <= selected
    ensures SelectedTotal(cart, selected) == CalculateTotal(cart)
  {
    TotalSplitsOver(cart, selected, selected);
    assert selected - selected == {};
    NothingSelected(cart);
  }

  // ----- the checkout guard

  datatype CheckoutDecision =
    | Alert(message: string)
    | GoToCheckout(selectedCartItems: seq<LineItem>)

  /** `handleCheckout`: alert and stay, or navigate with the selected rows. */
  function HandleCheckout(cart: seq<LineItem>, selected: set<string>): CheckoutDecision {
    if |selected| == 0 then Alert("Please select at least one item to checkout.")
    else
      var items := SelectedCartItems(cart, selected);
      if |items| == 0 then Alert("No selected items found. Please try again.")
      else GoToCheckout(items)
  }

  /** Checkout proceeds exactly when some cart row is selected, and then it
      carries exactly the selected rows; otherwise it alerts. */
  lemma HandleCheckoutSpec(cart: seq<LineItem>, selected: set<string>)
    ensures selected == {} ==> HandleCheckout(cart, selected) == Alert("Please select at least one item to checkout.")
    ensures HandleCheckout(cart, selected).GoToCheckout? <==>
              exists i :: 0 <= i < |cart| && KeyOf(cart[i]) in selected
    ensures selected != {} && (forall i :: 0 <= i < |cart| ==> KeyOf(cart[i]) !in selected) ==>
              HandleCheckout(cart, selected) == Alert("No selected items found. Please try again.")
    ensures HandleCheckout(cart, selected).GoToCheckout? ==>
              var items := HandleCheckout(cart, selected).selectedCartItems;
              && items == SelectedCartItems(cart, selected)
              && (forall x :: x in items <==> x in cart && KeyOf(x) in selected)
  {
    var items := SelectedCartItems(cart, selected);
    if exists i :: 0 <= i < |cart| && KeyOf(cart[i]) in selected {
      var i :| 0 <= i < |cart| && KeyOf(cart[i]) in selected;
      assert cart[i] in items;
    }
    if items != [] {
      var x := items[0];
      assert x in cart;
      var i :| 0 <= i < |cart| && cart[i] == x;
      assert KeyOf(cart[i]) in selected;
    }
  }

  /** The rows checkout carries are in cart order: `positions` are the
      cart positions they come from, strictly increasing, one for every
      selected row. */
  lemma HandleCheckoutInCartOrder(cart: seq<LineItem>, selected: set<string>) returns (positions: seq<nat>)
    ensures HandleCheckout(cart, selected).GoToCheckout? ==>
              Positions.KeptInOrder(cart, IsSelected(selected), HandleCheckout(cart, selected).selectedCartItems, positions)
  {
    positions := SelectedCartItemsInOrder(cart, selected);
  }

  // ----- ticking a row

  /** The selection after a row's checkbox reports `checked`: its key is
      in exactly when ticked, and every other key keeps its state. */
  function Toggled(selected: set<string>, key: string, checked: bool): (r: set<string>)
    ensures key in r <==> checked
    ensures forall k :: k != key ==> (k in r <==> k in selected)
  {
    if checked then selected + {key} else selected - {key}
  }

  /** Reporting the same state twice changes nothing the second time. */
  lemma ToggledIdempotent(selected: set<string>, key: string, checked: bool)
    ensures Toggled(Toggled(selected, key, checked), key, checked) == Toggled(selected, key, checked)
  {
  }

  /** Ticking then unticking a row that was not selected restores the selection. */
  lemma UntickUndoesTick(selected: set<string>, key: string)
    requires key !in selected
    ensures Toggled(Toggled(selected, key, true), key, false) == selected
  {
  }

  // ----- the page's state: selected and loading row keys

  /** How an awaited collaborator call ends. */
  datatype CallOutcome = Resolves | Throws

  /** A call made on the cart's owner (`updateQuantity` / `removeFromCart`). */
  datatype CartCall =
    | UpdateQuantityCall(id: nat, quantity: int, size: Option<string>)
    | RemoveFromCartCall(id: nat, size: Option<string>)

  /** A removal awaiting confirmation: the row it was raised for, whose name
      and size the dialog shows and whose id and size the removal uses. */
  datatype PendingRemoval = PendingRemoval(item: LineItem)
  {
    function RemovalCall(): CartCall {
      RemoveFromCartCall(item.id, item.size)
    }
  }

  class CartPage {
    /** Keys of rows with a call in flight. */
    var loadingItems: set<string>
    /** Keys of rows ticked for checkout. */
    var selectedItems: set<string>

    constructor()
      ensures loadingItems == {} && selectedItems == {}
    {
      loadingItems := {};
      selectedItems := {};
    }

    method ToggleSelectItem(item: LineItem, checked: bool)
      modifies this
      ensures selectedItems == Toggled(old(selectedItems), KeyOf(item), checked)
      ensures loadingItems == old(loadingItems)
    {
      var key := KeyOf(item);
      if checked {
        selectedItems := selectedItems + {key};
      } else {
        selectedItems := selectedItems - {key};
      }
    }

    /** `handleUpdateQuantity`, run to completion; `loadingDuringCall` is the
        loading set while `updateQuantity` is awaited. */
    method HandleUpdateQuantity(id: nat, newQuantity: int, size: Option<string>, outcome: CallOutcome)
      returns (call: CartCall, loadingDuringCall: set<string>)
      modifies this
      ensures call == UpdateQuantityCall(id, newQuantity, size)
      ensures loadingDuringCall == old(loadingItems) + {ItemKey(id, size)}
      ensures loadingItems == old(loadingItems) - {ItemKey(id, size)}
      ensures selectedItems == old(selectedItems)
    {
      var itemKey := ItemKey(id, size);
      loadingItems := loadingItems + {itemKey};
      loadingDuringCall := loadingItems;
      call := UpdateQuantityCall(id, newQuantity, size);
      match outcome {
        case Resolves =>
        case Throws =>
      }
      loadingItems := loadingItems - {itemKey};
    }

    /** `handleRemoveFromCart`, run to completion: the selection loses the key
        only when the removal succeeds; the loading mark goes either way. */
    method HandleRemoveFromCart(id: nat, size: Option<string>, outcome: CallOutcome)
      returns (call: CartCall, loadingDuringCall: set<string>)
      modifies this
      ensures call == RemoveFromCartCall(id, size)
      ensures loadingDuringCall == old(loadingItems) + {ItemKey(id, size)}
      ensures loadingItems == old(loadingItems) - {ItemKey(id, size)}
      ensures selectedItems == if outcome == Resolves then old(selectedItems) - {ItemKey(id, size)}
                               else old(selectedItems)
    {
      var itemKey := ItemKey(id, size);
      loadingItems := loadingItems + {itemKey};
      loadingDuringCall := loadingItems;
      call := RemoveFromCartCall(id, size);
      match outcome {
        case Resolves =>
          selectedItems := selectedItems - {itemKey};
        case Throws =>
      }
      loadingItems := loadingItems - {itemKey};
    }

    /** The summary figures the page renders from its state. */
    method Summary(cart: seq<LineItem>) returns (selectedCount: nat, selectedTotal: int, subtotal: int)
      ensures selectedCount == |selectedItems|
      ensures subtotal == CalculateTotal(cart) && selectedTotal == SelectedTotal(cart, selectedItems)
      ensures selectedTotal + SelectedTotal(cart, CartKeys(cart) - selectedItems) == subtotal
      ensures selectedTotal == SelectedTotal(cart, selectedItems * CartKeys(cart))
    {
      selectedCount := |selectedItems|;
      selectedTotal := SelectedTotal(cart, selectedItems);
      subtotal := CalculateTotal(cart);
      TotalSplitsBySelection(cart, selectedItems);
      SelectedTotalIgnoresDanglingKeys(cart, selectedItems);
    }
  }
}
