// The order history page (OrderHistoryPage.jsx): paging through the user's
// orders three at a time, the item preview on each order card, the reorder
// action that puts an old order's items back into the cart, the per-product
// review cache, and the guarded fetch of the orders. Requests, the token
// store and the cart's `addToCart` are parameters.

module OrderHistory {
  import opened Outcomes
  import Text

  // ----- paging

  const PAGE_SIZE: nat := 3

  /** Load More: `Math.min(prev + 3, orders.length)`. */
  function LoadMore(visibleCount: nat, ordersLength: nat): nat {
    if visibleCount + PAGE_SIZE <= ordersLength then visibleCount + PAGE_SIZE else ordersLength
  }

  /** The Load More button is shown while some order is hidden. */
  predicate ShowLoadMore(ordersLength: nat, visibleCount: nat) {
    ordersLength > visibleCount
  }

  /** `orders.slice(0, visibleCount)` */
  function VisibleOrders<T>(orders: seq<T>, visibleCount: nat): (shown: seq<T>)
    ensures |shown| == if visibleCount <= |orders| then visibleCount else |orders|
    ensures shown <= orders
  {
    if visibleCount <= |orders| then orders[..visibleCount] else orders
  }

  /** While the button is shown a click reveals at least one more order and
      at most three, never beyond the list; once it is hidden every order is
      on screen. */
  lemma LoadMoreSpec<T>(orders: seq<T>, visibleCount: nat)
    ensures ShowLoadMore(|orders|, visibleCount) ==>
              var next := LoadMore(visibleCount, |orders|);
              && visibleCount < next <= visibleCount + PAGE_SIZE
              && next <= |orders|
              && |VisibleOrders(orders, visibleCount)| < |VisibleOrders(orders, next)|
    ensures !ShowLoadMore(|orders|, visibleCount) ==> VisibleOrders(orders, visibleCount) == orders
  {
  }

  /** From the first page, `n` clicks show `min(3 + 3n, length)` orders. */
  lemma {:induction false} LoadMoreRepeated(ordersLength: nat, n: nat)
    ensures LoadMoreTimes(PAGE_SIZE, ordersLength, n) ==
              if ordersLength < PAGE_SIZE then (if n == 0 then PAGE_SIZE else ordersLength)
              else if PAGE_SIZE + PAGE_SIZE * n <= ordersLength then PAGE_SIZE + PAGE_SIZE * n
              else ordersLength
  {
    if n > 0 {
      LoadMoreRepeated(ordersLength, n - 1);
    }
  }

  function LoadMoreTimes(visibleCount: nat, ordersLength: nat, n: nat): nat {
    if n == 0 then visibleCount else LoadMore(LoadMoreTimes(visibleCount, ordersLength, n - 1), ordersLength)
  }

  // ----- the item preview of an order card

  const PREVIEW_SIZE: nat := 3

  /** `(order.items || order.orderItems)`: an item list, even an empty one, wins. */
  function CardItems<T>(items: Option<seq<T>>, orderItems: Option<seq<T>>): Option<seq<T>> {
    if items.Some? then items else orderItems
  }

  /** A present item list is previewed even when it is empty; the order's
      `orderItems` are used only when `items` is missing. */
  lemma CardItemsPreferItems<T>(items: Option<seq<T>>, orderItems: Option<seq<T>>)
    ensures items.Some? ==> CardItems(items, orderItems) == items
    ensures CardItems(Some([]), orderItems) == Some([])
    ensures items.None? ==> CardItems(items, orderItems) == orderItems
  {
  }

  /** `.slice(0, 3)` */
  function PreviewItems<T>(items: seq<T>): seq<T> {
    if |items| <= PREVIEW_SIZE then items else items[..PREVIEW_SIZE]
  }

  /** The "+N more item(s)" line, shown only for more than three items. */
  function MoreItemsLabel(count: nat): Option<string> {
    if count > PREVIEW_SIZE then
      var hidden := count - PREVIEW_SIZE;
      Some("+" + Text.NatToString(hidden) + " more item" + (if hidden != 1 then "s" else ""))
    else None
  }

  /** The preview and the "+N more" count together account for every item. */
  lemma PreviewSpec<T>(items: seq<T>)
    ensures PreviewItems(items) <= items && |PreviewItems(items)| <= PREVIEW_SIZE
    ensures MoreItemsLabel(|items|).None? <==> |items| <= PREVIEW_SIZE
    ensures MoreItemsLabel(|items|).Some? ==>
              |PreviewItems(items)| + (|items| - PREVIEW_SIZE) == |items|
              && Text.StartsWith(MoreItemsLabel(|items|).value, "+" + Text.NatToString(|items| - PREVIEW_SIZE) + " more item")
    ensures MoreItemsLabel(|items|).None? ==> PreviewItems(items) == items
  {
    if |items| > PREVIEW_SIZE {
      var prefix := "+" + Text.NatToString(|items| - PREVIEW_SIZE) + " more item";
      var line := MoreItemsLabel(|items|).value;
      assert line[..|prefix|] == prefix;
    }
  }

  // ----- reorder

  const PLACEHOLDER_IMAGE: string := "https://via.placeholder.com/200"

  /** An item of the old order; prices are in centavos. */
  datatype ReorderItem = ReorderItem(
    productId: int, productName: string, productImage: Option<string>, size: Option<string>,
    quantity: int, unitPrice: int)

  /** The product as fetched again: its name and first mapped image, when any. */
  datatype FetchedProduct = FetchedProduct(id: int, name: Option<string>, firstImage: Option<string>)

  /** How one item's work ends: the product fetch fails, or it succeeds and
      the `addToCart` call then succeeds or throws. */
  datatype ItemAttempt = FetchFailed | Fetched(product: FetchedProduct, addSucceeds: bool)

  /** What `addToCart` receives. */
  datatype CartProduct = CartProduct(id: int, name: string, price: int, image: string, selectedSize: Option<string>)
  datatype CartAdd = CartAdd(product: CartProduct, quantity: int)

  /** `s || fallback` for an optional string. */
  function OrElse(s: Option<string>, fallback: string): string {
    if s.Some? && s.value != "" then s.value else fallback
  }

  function ProductForCart(item: ReorderItem, product: FetchedProduct): CartProduct {
    CartProduct(product.id, OrElse(product.name, item.productName), item.unitPrice,
                OrElse(product.firstImage, OrElse(item.productImage, PLACEHOLDER_IMAGE)), item.size)
  }

  /** The running state of the reorder loop. */
  datatype ReorderTally = ReorderTally(addedCount: nat, failedItems: seq<string>, calls: seq<CartAdd>)

  /** One iteration of the loop body. */
  function ReorderStep(t: ReorderTally, item: ReorderItem, attempt: ItemAttempt, hasAddToCart: bool): ReorderTally {
    match attempt
    case FetchFailed => t.(failedItems := t.failedItems + [item.productName])
    case Fetched(product, addSucceeds) =>
      if !hasAddToCart then t
      else
        var calls := t.calls + [CartAdd(ProductForCart(item, product), item.quantity)];
        if addSucceeds then ReorderTally(t.addedCount + 1, t.failedItems, calls)
        else ReorderTally(t.addedCount, t.failedItems + [item.productName], calls)
  }

  /** The loop over the order's items. */
  function Tally(items: seq<ReorderItem>, attempts: seq<ItemAttempt>, hasAddToCart: bool): ReorderTally
    requires |attempts| == |items|
  {
    if items == [] then ReorderTally(0, [], [])
    else ReorderStep(Tally(items[..|items| - 1], attempts[..|attempts| - 1], hasAddToCart),
                     items[|items| - 1], attempts[|attempts| - 1], hasAddToCart)
  }

  /** Every item is counted at most once, as added or as failed; `addToCart`
      is called at most once per item, and never when it is not provided. */
  lemma {:induction false} TallyBounds(items: seq<ReorderItem>, attempts: seq<ItemAttempt>, hasAddToCart: bool)
    requires |attempts| == |items|
    ensures var t := Tally(items, attempts, hasAddToCart);
            && t.addedCount + |t.failedItems| <= |items|
            && t.addedCount <= |t.calls| <= |items|
            && (!hasAddToCart ==> t.addedCount == 0 && t.calls == [])
            && ((forall i :: 0 <= i < |attempts| ==> attempts[i].Fetched? && attempts[i].addSucceeds) && hasAddToCart ==>
                  t.addedCount == |items| && t.failedItems == [])
  {
    if items != [] {
      var init, initA := items[..|items| - 1], attempts[..|attempts| - 1];
      TallyBounds(init, initA, hasAddToCart);
      if (forall i :: 0 <= i < |attempts| ==> attempts[i].Fetched? && attempts[i].addSucceeds) {
        assert forall i :: 0 <= i < |initA| ==> initA[i] == attempts[i];
      }
    }
  }

  datatype ToastType = SuccessToast | WarningToast | ErrorToast
  datatype Toast = Toast(message: string, kind: ToastType)
  datatype ReorderResult = ReorderResult(toast: Toast, navigateToCart: bool, calls: seq<CartAdd>)

  /** The toast and navigation chosen after the loop. */
  function ClassifyReorder(t: ReorderTally): ReorderResult {
    if t.addedCount > 0 && |t.failedItems| == 0 then
      ReorderResult(Toast("Successfully added " + Text.NatToString(t.addedCount) + " item(s) to your cart!", SuccessToast), true, t.calls)
    else if t.addedCount > 0 then
      ReorderResult(Toast("Added " + Text.NatToString(t.addedCount) + " item(s) to cart. Failed to add: "
                          + JoinNames(t.failedItems), WarningToast), true, t.calls)
    else
      ReorderResult(Toast("Failed to add items to cart. Please try again.", ErrorToast), false, t.calls)
  }

  /** `failedItems.join(', ')` */
  function JoinNames(names: seq<string>): string {
    if |names| == 0 then "" else if |names| == 1 then names[0] else names[0] + ", " + JoinNames(names[1..])
  }

  /** `handleReorder` as a function of how each item's work ends. */
  function Reorder(orderItems: Option<seq<ReorderItem>>, attempts: seq<ItemAttempt>, hasAddToCart: bool): ReorderResult
    requires orderItems.Some? ==> |attempts| == |orderItems.value|
  {
    if orderItems.None? || |orderItems.value| == 0 then
      ReorderResult(Toast("No items found in this order.", ErrorToast), false, [])
    else ClassifyReorder(Tally(orderItems.value, attempts, hasAddToCart))
  }

  /** The reorder outcomes: nothing to reorder is an error and calls nothing;
      otherwise the page goes to the cart exactly when something was added,
      with a success toast when nothing failed and a warning naming the failed
      items when something did; with nothing added it reports an error. */
  lemma ReorderSpec(orderItems: Option<seq<ReorderItem>>, attempts: seq<ItemAttempt>, hasAddToCart: bool)
    requires orderItems.Some? ==> |attempts| == |orderItems.value|
    ensures var r := Reorder(orderItems, attempts, hasAddToCart);
            && (orderItems.None? || orderItems.value == [] ==>
                  r.toast == Toast("No items found in this order.", ErrorToast) && !r.navigateToCart && r.calls == [])
            && (orderItems.Some? && orderItems.value != [] ==>
                  var t := Tally(orderItems.value, attempts, hasAddToCart);
                  && (r.navigateToCart <==> t.addedCount > 0)
                  && (r.toast.kind == SuccessToast <==> t.addedCount > 0 && t.failedItems == [])
                  && (r.toast.kind == WarningToast <==> t.addedCount > 0 && t.failedItems != [])
                  && (r.toast.kind == ErrorToast <==> t.addedCount == 0)
                  && (r.toast.kind == WarningToast ==> Text.EndsWith(r.toast.message, JoinNames(t.failedItems)))
                  && r.calls == t.calls)
  {
    if orderItems.Some? && orderItems.value != [] {
      var t := Tally(orderItems.value, attempts, hasAddToCart);
      var r := Reorder(orderItems, attempts, hasAddToCart);
      if t.addedCount > 0 && t.failedItems != [] {
        var names := JoinNames(t.failedItems);
        var m := r.toast.message;
        assert m[|m| - |names|..] == names;
      }
    }
  }

  /** The reorder loop as the page runs it, item by item. */
  method HandleReorder(orderItems: Option<seq<ReorderItem>>, attempts: seq<ItemAttempt>, hasAddToCart: bool)
    returns (result: ReorderResult)
    requires orderItems.Some? ==> |attempts| == |orderItems.value|
    ensures result == Reorder(orderItems, attempts, hasAddToCart)
  {
    if orderItems.None? || |orderItems.value| == 0 {
      return ReorderResult(Toast("No items found in this order.", ErrorToast), false, []);
    }
    var items := orderItems.value;
    var addedCount: nat := 0;
    var failedItems: seq<string> := [];
    var calls: seq<CartAdd> := [];
    for i := 0 to |items|
      invariant ReorderTally(addedCount, failedItems, calls) == Tally(items[..i], attempts[..i], hasAddToCart)
    {
      assert items[..i + 1][..i] == items[..i] && attempts[..i + 1][..i] == attempts[..i];
      var item := items[i];
      match attempts[i] {
        case FetchFailed =>
          failedItems := failedItems + [item.productName];
        case Fetched(product, addSucceeds) =>
          if hasAddToCart {
            calls := calls + [CartAdd(ProductForCart(item, product), item.quantity)];
            if addSucceeds {
              addedCount := addedCount + 1;
            } else {
              failedItems := failedItems + [item.productName];
            }
          }
      }
    }
    assert items[..|items|] == items && attempts[..|attempts|] == attempts;
    result := ClassifyReorder(ReorderTally(addedCount, failedItems, calls));
  }

  // ----- the page's state

  /** A review of the signed-in user, as the review endpoint returns it. */
  datatype UserReview = UserReview(id: int, rating: int, comment: string)

  /** How the request for the user's orders ends: the orders, or an error
      with the HTTP status of its response, if there was one. */
  datatype OrdersFetch = OrdersFetched(orders: seq<int>) | OrdersFailed(status: Option<int>)

  const NOT_LOGGED_IN: string := "Please log in to view your orders."
  const SESSION_EXPIRED: string := "Session expired. Please log in again."
  const LOAD_FAILED: string := "Failed to load orders. Please try again."

  class OrderHistoryPage {
    /** The user's orders, by id, in the order the server sent them. */
    var orders: seq<int>
    var loading: bool
    var error: Option<string>
    var visibleCount: nat
    /** Cached review lookups; a cached `None` is a known absence. */
    var productReviews: map<int, Option<UserReview>>

    constructor()
      ensures orders == [] && loading && error == None && visibleCount == PAGE_SIZE && productReviews == map[]
    {
      orders := [];
      loading := true;
      error := None;
      visibleCount := PAGE_SIZE;
      productReviews := map[];
    }

    /** `fetchUserOrders`: without a token no request is made; a failure sets
        the session-expired message on 401 and the generic one otherwise;
        `loading` is false afterwards on every path. A success does not clear
        an earlier error. */
    method FetchUserOrders(token: Option<string>, fetch: OrdersFetch) returns (requested: bool)
      modifies this
      ensures !loading
      ensures requested <==> token.Some? && token.value != ""
      ensures !requested ==> error == Some(NOT_LOGGED_IN) && orders == old(orders)
      ensures requested && fetch.OrdersFetched? ==> orders == fetch.orders && error == old(error)
      ensures requested && fetch.OrdersFailed? ==>
                orders == old(orders)
                && error == Some(if fetch.status == Some(401) then SESSION_EXPIRED else LOAD_FAILED)
      ensures visibleCount == old(visibleCount) && productReviews == old(productReviews)
    {
      loading := true;
      if token.None? || token.value == "" {
        error := Some(NOT_LOGGED_IN);
        loading := false;
        return false;
      }
      requested := true;
      match fetch {
        case OrdersFetched(fetched) =>
          orders := fetched;
        case OrdersFailed(status) =>
          if status == Some(401) {
            error := Some(SESSION_EXPIRED);
          } else {
            error := Some(LOAD_FAILED);
          }
      }
      loading := false;
    }

    /** The Load More button. */
    method HandleLoadMore()
      modifies this
      ensures visibleCount == LoadMore(old(visibleCount), |orders|)
      ensures orders == old(orders) && loading == old(loading) && error == old(error)
      ensures productReviews == old(productReviews)
    {
      visibleCount := LoadMore(visibleCount, |orders|);
    }

    /** `checkProductReview`: a cached entry, absence included, is returned
        without a request; otherwise the fetched result is cached and returned. */
    method CheckProductReview(productId: int, fetched: Option<UserReview>)
      returns (review: Option<UserReview>, requested: bool)
      modifies this
      ensures requested <==> productId !in old(productReviews)
      ensures !requested ==> review == old(productReviews)[productId] && productReviews == old(productReviews)
      ensures requested ==> review == fetched && productReviews == old(productReviews)[productId := fetched]
      ensures orders == old(orders) && loading == old(loading) && error == old(error)
      ensures visibleCount == old(visibleCount)
    {
      if productId in productReviews {
        return productReviews[productId], false;
      }
      productReviews := productReviews[productId := fetched];
      review, requested := fetched, true;
    }
  }

  /** A second lookup of the same product never makes a request and returns
      what the first one returned. */
  method CheckProductReviewTwice(page: OrderHistoryPage, productId: int, first: Option<UserReview>, second: Option<UserReview>)
    returns (r1: Option<UserReview>, r2: Option<UserReview>, requested2: bool)
    modifies page
    ensures !requested2 && r2 == r1
  {
    var requested1;
    r1, requested1 := page.CheckProductReview(productId, first);
    r2, requested2 := page.CheckProductReview(productId, second);
  }
}
