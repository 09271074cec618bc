// The administrative rules of the back end (AdminService.java, with the order
// lifecycle of Enum/Status.java): the size list parsed when a product is
// created, the low-stock report, the order status and payment status
// updates, and the order response with its line totals. Repositories are
// maps; the product and order services' own logic is not part of this model.

module Admin {
  import opened Outcomes
  import opened JavaInt
  import Text
  import opened SizeInventory

  // ----- the size list of a new product

  /** One part of the list: trimmed (Java `trim`), with every `"` deleted. */
  function CleanSize(part: string): (size: string)
    ensures '"' !in size
    ensures forall c :: c in size ==> c in part
  {
    var trimmed := Text.JavaTrim(part);
    var start := Text.TrimStart(part, Text.IsJavaSpace);
    assert forall c :: c in start ==> c in part by {
      Text.TrimStartSpec(part, Text.IsJavaSpace);
      assert start == part[|part| - |start|..];
    }
    assert forall c :: c in trimmed ==> c in start by {
      Text.TrimEndSpec(start, Text.IsJavaSpace);
      assert trimmed == start[..|trimmed|];
    }
    Text.RemoveAll(trimmed, '"')
  }

  /** The cleaned parts, empty results skipped, in list order. */
  function CleanSizes(parts: seq<string>): (sizes: seq<string>)
    ensures |sizes| <= |parts|
    ensures forall i :: 0 <= i < |sizes| ==> sizes[i] != "" && '"' !in sizes[i]
    ensures forall i, c :: 0 <= i < |sizes| && c in sizes[i] ==> exists j :: 0 <= j < |parts| && c in parts[j]
  {
    if parts == [] then []
    else
      var before := CleanSizes(parts[..|parts| - 1]);
      var size := CleanSize(parts[|parts| - 1]);
      assert forall i, c :: 0 <= i < |before| && c in before[i] ==>
               exists j :: 0 <= j < |parts| && c in parts[j] by {
        forall i, c | 0 <= i < |before| && c in before[i]
          ensures exists j :: 0 <= j < |parts| && c in parts[j]
        {
          var j :| 0 <= j < |parts| - 1 && c in parts[..|parts| - 1][j];
          assert parts[j] == parts[..|parts| - 1][j];
        }
      }
      before + (if size == "" then [] else [size])
  }

  /** The sizes `createProduct` initialises: only for a list written as
      `[...]`; the brackets are stripped and the rest split at every comma.
      (Java's `split` drops trailing empty parts, which are skipped here
      anyway.) */
  function ParseSizeList(sizesJson: string): (sizes: seq<string>)
    ensures !(Text.StartsWith(sizesJson, "[") && Text.EndsWith(sizesJson, "]")) ==> sizes == []
    ensures forall i :: 0 <= i < |sizes| ==> sizes[i] != "" && '"' !in sizes[i] && ',' !in sizes[i]
  {
    if Text.StartsWith(sizesJson, "[") && Text.EndsWith(sizesJson, "]") then
      assert sizesJson[0] == '[' && sizesJson[|sizesJson| - 1] == ']';
      var parts := Text.Split(sizesJson[1..|sizesJson| - 1], ',');
      CleanSizes(parts)
    else []
  }

  /** A size list as a JSON array of strings, written `["7", "7.5", ...]`. */
  function SizeListJson(sizes: seq<string>): string {
    "[" + Text.Join(QuotedParts(sizes), ',') + "]"
  }

  function Quoted(s: string): string {
    "\"" + s + "\""
  }

  /** The array's elements between the commas: each after the first is
      preceded by one space. */
  function QuotedParts(sizes: seq<string>): (parts: seq<string>)
    ensures |parts| == |sizes|
    ensures forall i :: 0 < i < |sizes| ==> parts[i] == " " + Quoted(sizes[i])
    ensures 0 < |sizes| ==> parts[0] == Quoted(sizes[0])
  {
    seq(|sizes|, i requires 0 <= i < |sizes| => if i == 0 then Quoted(sizes[0]) else " " + Quoted(sizes[i]))
  }

  /** A size the list format can carry: non-empty, with no quote or comma. */
  predicate PlainSize(s: string) {
    s != "" && '"' !in s && ',' !in s
  }

  lemma {:induction false} RemoveAllAppend(a: string, b: string, c: char)
    ensures Text.RemoveAll(a + b, c) == Text.RemoveAll(a, c) + Text.RemoveAll(b, c)
  {
    if a == [] {
      assert a + b == b;
    } else {
      assert (a + b)[0] == a[0];
      assert (a + b)[1..] == a[1..] + b;
      RemoveAllAppend(a[1..], b, c);
    }
  }

  /** Deleting the quotes of a quoted quote-free string gives the string. */
  lemma UnquoteQuoted(s: string)
    requires '"' !in s
    ensures Text.RemoveAll(Quoted(s), '"') == s
  {
    RemoveAllAppend("\"" + s, "\"", '"');
    RemoveAllAppend("\"", s, '"');
    assert Text.RemoveAll("\"", '"') == "";
  }

  /** Trimming removes the one leading space and nothing of the quoted string. */
  lemma TrimQuoted(s: string, lead: string)
    requires lead == "" || lead == " "
    ensures Text.JavaTrim(lead + Quoted(s)) == Quoted(s)
  {
    var q := Quoted(s);
    assert q[0] == '"' && q[|q| - 1] == '"';
    assert Text.TrimStart(q, Text.IsJavaSpace) == q;
    if lead == " " {
      assert (lead + q)[0] == ' ' && (lead + q)[1..] == q;
    } else {
      assert lead + q == q;
    }
    assert Text.TrimEnd(q, Text.IsJavaSpace) == q;
  }

  /** A quoted plain size, with or without one leading space, cleans back to the size. */
  lemma CleanQuoted(s: string, lead: string)
    requires PlainSize(s)
    requires lead == "" || lead == " "
    ensures CleanSize(lead + Quoted(s)) == s
  {
    TrimQuoted(s, lead);
    UnquoteQuoted(s);
  }

  lemma {:induction false} CleanQuotedParts(sizes: seq<string>)
    requires forall i :: 0 <= i < |sizes| ==> PlainSize(sizes[i])
    ensures CleanSizes(QuotedParts(sizes)) == sizes
    decreases |sizes|
  {
    if sizes != [] {
      var init := sizes[..|sizes| - 1];
      var last := sizes[|sizes| - 1];
      var parts := QuotedParts(sizes);
      assert parts[..|parts| - 1] == QuotedParts(init);
      CleanQuotedParts(init);
      var lead := if |sizes| == 1 then "" else " ";
      assert parts[|parts| - 1] == lead + Quoted(last);
      CleanQuoted(last, lead);
      assert CleanSize(parts[|parts| - 1]) == last != "";
      assert CleanSizes(parts) == CleanSizes(QuotedParts(init)) + [last];
      assert init + [last] == sizes;
    }
  }

  /** Writing plain sizes as a JSON string array and parsing the array gives
      the sizes back, in order. */
  lemma ParseSizeListRoundTrip(sizes: seq<string>)
    requires forall i :: 0 <= i < |sizes| ==> PlainSize(sizes[i])
    ensures ParseSizeList(SizeListJson(sizes)) == sizes
  {
    var json := SizeListJson(sizes);
    var inner := Text.Join(QuotedParts(sizes), ',');
    assert json[1..|json| - 1] == inner;
    assert Text.StartsWith(json, "[") && Text.EndsWith(json, "]");
    if sizes == [] {
      assert inner == "";
      assert Text.Split(inner, ',') == [""];
      assert CleanSize("") == "";
      assert CleanSizes([""]) == CleanSizes([]) + [];
    } else {
      forall i | 0 <= i < |sizes|
        ensures ',' !in QuotedParts(sizes)[i]
      {
      }
      Text.SplitJoin(QuotedParts(sizes), ',');
      CleanQuotedParts(sizes);
    }
  }

  /** A size list not written as `[...]` initialises nothing. */
  lemma UnbracketedListIgnored(sizesJson: string)
    requires sizesJson == "" || sizesJson[0] != '['
    ensures ParseSizeList(sizesJson) == []
  {
  }

  /** `updateInventory(id, size, 0)` for each parsed size, in order. */
  function ZeroSizes(inv: Inventory, sizes: seq<string>): Inventory
    decreases |sizes|
  {
    if sizes == [] then inv else SetQuantity(ZeroSizes(inv, sizes[..|sizes| - 1]), sizes[|sizes| - 1], 0)
  }

  /** On a consistent ledger every listed size ends with nothing on hand and
      nothing reserved; other sizes are untouched. */
  lemma {:induction false} ZeroSizesSpec(inv: Inventory, sizes: seq<string>)
    requires WellFormed(inv)
    ensures var r := ZeroSizes(inv, sizes);
            && r.Keys == inv.Keys + (set s | s in sizes)
            && (forall s :: s in sizes ==> r[s] == SizeInventoryData(0, 0))
            && (forall s :: s in inv && s !in sizes ==> r[s] == inv[s])
            && WellFormed(r)
    decreases |sizes|
  {
    if sizes != [] {
      var init := sizes[..|sizes| - 1];
      ZeroSizesSpec(inv, init);
      assert sizes == init + [sizes[|sizes| - 1]];
      assert (set s | s in sizes) == (set s | s in init) + {sizes[|sizes| - 1]};
    }
  }

  // ----- the low-stock report

  const LOW_STOCK_THRESHOLD: int := 5

  /** `isLowStock`: some size has at most five units available. */
  predicate IsLowStock(inv: Inventory) {
    exists size :: size in inv && inv[size].Available() <= LOW_STOCK_THRESHOLD
  }

  /** A product with no sizes is never low on stock; on a consistent ledger
      "available" is the plain difference. */
  lemma IsLowStockSpec(inv: Inventory)
    ensures inv == map[] ==> !IsLowStock(inv)
    ensures WellFormed(inv) ==>
              (IsLowStock(inv) <==> exists size :: size in inv && inv[size].quantity - inv[size].reserved <= LOW_STOCK_THRESHOLD)
  {
    if WellFormed(inv) {
      forall size | size in inv
        ensures inv[size].Available() == inv[size].quantity - inv[size].reserved
      {
        AvailableIsExact(inv[size]);
      }
    }
  }

  /** A product created with at least one listed size starts out low on stock. */
  lemma NewProductIsLowStock(inv: Inventory, sizes: seq<string>)
    requires WellFormed(inv) && |sizes| > 0
    ensures IsLowStock(ZeroSizes(inv, sizes))
  {
    ZeroSizesSpec(inv, sizes);
    var size := sizes[0];
    assert size in sizes;
    assert ZeroSizes(inv, sizes)[size].Available() == 0;
  }

  /** A product as `findAll` returns it, with its parsed size inventory. */
  datatype StoredProduct = StoredProduct(id: ProductId, inventory: Inventory)

  /** `getLowStockProducts`: the ids of the low-stock products. */
  function LowStockProducts(products: seq<StoredProduct>): (ids: seq<ProductId>)
    ensures |ids| <= |products|
    ensures forall i :: 0 <= i < |products| && IsLowStock(products[i].inventory) ==> products[i].id in ids
    ensures forall id :: id in ids ==>
              exists i :: 0 <= i < |products| && products[i].id == id && IsLowStock(products[i].inventory)
  {
    if products == [] then []
    else
      var before := LowStockProducts(products[..|products| - 1]);
      var last := products[|products| - 1];
      assert forall id :: id in before ==>
               exists i :: 0 <= i < |products| && products[i].id == id && IsLowStock(products[i].inventory) by {
        forall id | id in before
          ensures exists i :: 0 <= i < |products| && products[i].id == id && IsLowStock(products[i].inventory)
        {
          var i :| 0 <= i < |products| - 1 && products[..|products| - 1][i].id == id
                   && IsLowStock(products[..|products| - 1][i].inventory);
          assert products[i] == products[..|products| - 1][i];
        }
      }
      before + (if IsLowStock(last.inventory) then [last.id] else [])
  }

  /** `getLowStockProductsCount`: the same filter, counted. */
  function LowStockCount(products: seq<StoredProduct>): nat {
    if products == [] then 0
    else LowStockCount(products[1..]) + (if IsLowStock(products[0].inventory) then 1 else 0)
  }

  /** The dashboard's low-stock count is the length of the low-stock list. */
  lemma {:induction false} LowStockCountMatchesList(products: seq<StoredProduct>)
    ensures LowStockCount(products) == |LowStockProducts(products)|
    decreases |products|
  {
    if products != [] {
      var init := products[..|products| - 1];
      var last := products[|products| - 1];
      LowStockCountMatchesList(init);
      LowStockCountAppend(init, last);
      assert init + [last] == products;
    }
  }

  lemma {:induction false} LowStockCountAppend(products: seq<StoredProduct>, p: StoredProduct)
    ensures LowStockCount(products + [p]) == LowStockCount(products) + (if IsLowStock(p.inventory) then 1 else 0)
    decreases |products|
  {
    if products == [] {
      assert ([] + [p])[1..] == [];
    } else {
      assert (products + [p])[1..] == products[1..] + [p];
      LowStockCountAppend(products[1..], p);
    }
  }

  /** A missing revenue total is reported as zero. */
  function ReportedRevenue(totalRevenue: Option<int>): (r: int)
    ensures totalRevenue.None? ==> r == 0
    ensures totalRevenue.Some? ==> r == totalRevenue.value
  {
    if totalRevenue.None? then 0 else totalRevenue.value
  }

  // ----- orders

  /** The order lifecycle of `Status`. */
  datatype Status = PENDING | PROCESSING | DELIVERED | COMPLETED | CANCELLED

  /** A payment status; only `COMPLETED` is distinguished by the rules
      (the PaymentStatus enum itself is not part of this model). */
  datatype PaymentStatus = PaymentCompleted | OtherPaymentStatus(name: string)

  datatype ShippingInfo = ShippingInfo(
    firstName: string, lastName: string, address: string, city: string,
    province: string, postalCode: string, phone: string)

  /** Prices are in centavos. */
  datatype OrderItem = OrderItem(
    productName: string, productImage: string, size: Option<string>, quantity: int, unitPrice: int)

  datatype Order = Order(
    id: int, orderNumber: string, totalAmount: int, status: Option<Status>, orderDate: string,
    paymentMethod: string, paymentStatus: Option<PaymentStatus>, shipping: ShippingInfo,
    orderItems: Option<seq<OrderItem>>)

  datatype OrderItemResponse = OrderItemResponse(
    productName: string, productImage: string, size: Option<string>, quantity: int, unitPrice: int, totalPrice: int)

  datatype OrderResponse = OrderResponse(
    id: int, orderNumber: string, totalAmount: int, status: Option<Status>, orderDate: string,
    paymentMethod: string, paymentStatus: Option<PaymentStatus>, shipping: ShippingInfo,
    orderItems: Option<seq<OrderItemResponse>>)

  /** The response items: one per order item, in order, each with
      `totalPrice = unitPrice × quantity`. */
  function ItemResponses(items: seq<OrderItem>): (r: seq<OrderItemResponse>)
    ensures |r| == |items|
    ensures forall i :: 0 <= i < |items| ==>
              && r[i].productName == items[i].productName && r[i].productImage == items[i].productImage
              && r[i].size == items[i].size && r[i].quantity == items[i].quantity
              && r[i].unitPrice == items[i].unitPrice
              && r[i].totalPrice == items[i].unitPrice * items[i].quantity
  {
    if items == [] then []
    else
      var it := items[|items| - 1];
      ItemResponses(items[..|items| - 1])
        + [OrderItemResponse(it.productName, it.productImage, it.size, it.quantity, it.unitPrice, it.unitPrice * it.quantity)]
  }

  /** `convertToOrderResponse`: the order's fields copied, items converted
      when present (a missing item list stays missing). */
  function ConvertToOrderResponse(order: Order): (r: OrderResponse)
    ensures r.id == order.id && r.orderNumber == order.orderNumber && r.totalAmount == order.totalAmount
    ensures r.status == order.status && r.paymentStatus == order.paymentStatus && r.shipping == order.shipping
    ensures r.orderDate == order.orderDate && r.paymentMethod == order.paymentMethod
    ensures r.orderItems.Some? <==> order.orderItems.Some?
    ensures r.orderItems.Some? ==> r.orderItems.value == ItemResponses(order.orderItems.value)
  {
    OrderResponse(order.id, order.orderNumber, order.totalAmount, order.status, order.orderDate,
                  order.paymentMethod, order.paymentStatus, order.shipping,
                  if order.orderItems.Some? then Some(ItemResponses(order.orderItems.value)) else None)
  }

  function LineTotalsSum(items: seq<OrderItemResponse>): int {
    if items == [] then 0 else LineTotalsSum(items[..|items| - 1]) + items[|items| - 1].totalPrice
  }

  function ItemsValue(items: seq<OrderItem>): int {
    if items == [] then 0 else ItemsValue(items[..|items| - 1]) + items[|items| - 1].unitPrice * items[|items| - 1].quantity
  }

  /** The response's line totals add up to the value of the ordered items. */
  lemma {:induction false} LineTotalsSumToItemsValue(items: seq<OrderItem>)
    ensures LineTotalsSum(ItemResponses(items)) == ItemsValue(items)
  {
    if items != [] {
      var r := ItemResponses(items);
      assert r[..|r| - 1] == ItemResponses(items[..|items| - 1]);
      LineTotalsSumToItemsValue(items[..|items| - 1]);
    }
  }

  /** The exceptions of the order and inventory administration. */
  datatype AdminError =
    | OrderNotFound
    | OrderNotFoundWithId(id: int)
    | CannotDeliverUnpaid
    | InvalidOrderStatus
    | InvalidPaymentStatus
    | UnknownProduct(productId: ProductId)
  {
    function Message(): string {
      match this
      case OrderNotFound => "Order not found"
      case OrderNotFoundWithId(id) => "Order not found with id: " + Text.IntToString(id)
      case CannotDeliverUnpaid => "Cannot mark as DELIVERED. Payment status is not yet COMPLETED."
      case InvalidOrderStatus => "Invalid order status: null"
      case InvalidPaymentStatus => "Invalid payment status: null"
      case UnknownProduct(id) => "Product not found with id: " + Text.IntToString(id)
    }
  }

  /** `updateOrderStatusByAdmin` once the order is found. */
  function AdminSetStatus(order: Order, newStatus: Option<Status>): Result<Order, AdminError> {
    if newStatus == Some(DELIVERED) && order.paymentStatus != Some(PaymentCompleted) then Failure(CannotDeliverUnpaid)
    else Success(order.(status := newStatus))
  }

  /** `updateOrderStatus` once the order is found. */
  function SetStatus(order: Order, status: Option<Status>): Result<Order, AdminError> {
    if status.None? then Failure(InvalidOrderStatus) else Success(order.(status := status))
  }

  /** `updateOrderPaymentStatus` once the order is found. */
  function SetPaymentStatus(order: Order, paymentStatus: Option<PaymentStatus>): Result<Order, AdminError> {
    if paymentStatus.None? then Failure(InvalidPaymentStatus) else Success(order.(paymentStatus := paymentStatus))
  }

  /** The delivery rule: a delivered order has been paid. */
  predicate DeliveredOnlyIfPaid(order: Order) {
    order.status == Some(DELIVERED) ==> order.paymentStatus == Some(PaymentCompleted)
  }

  /** The administrator's update refuses DELIVERED for an unpaid order and sets
      any other status (null included) as given; what it stores always obeys
      the delivery rule. */
  lemma AdminSetStatusSpec(order: Order, newStatus: Option<Status>)
    ensures AdminSetStatus(order, newStatus).Failure? <==>
              newStatus == Some(DELIVERED) && order.paymentStatus != Some(PaymentCompleted)
    ensures AdminSetStatus(order, newStatus).Failure? ==> AdminSetStatus(order, newStatus).error == CannotDeliverUnpaid
    ensures AdminSetStatus(order, newStatus).Success? ==>
              && AdminSetStatus(order, newStatus).value == order.(status := newStatus)
              && DeliveredOnlyIfPaid(AdminSetStatus(order, newStatus).value)
  {
  }

  /** The other two updates reject null and otherwise overwrite only their field. */
  lemma FieldUpdatesSpec(order: Order, status: Option<Status>, paymentStatus: Option<PaymentStatus>)
    ensures SetStatus(order, status).Failure? <==> status.None?
    ensures status.Some? ==> SetStatus(order, status).value == order.(status := status)
    ensures SetPaymentStatus(order, paymentStatus).Failure? <==> paymentStatus.None?
    ensures paymentStatus.Some? ==> SetPaymentStatus(order, paymentStatus).value == order.(paymentStatus := paymentStatus)
  {
  }

  /** The delivery rule holds only on the administrator's path: the plain
      status update delivers an unpaid order, and a payment update can
      un-pay a delivered one. */
  lemma DeliveryRuleOnlyOnAdminPath(order: Order)
    requires order.paymentStatus == Some(OtherPaymentStatus("PENDING"))
    ensures AdminSetStatus(order, Some(DELIVERED)).Failure?
    ensures SetStatus(order, Some(DELIVERED)).Success? && !DeliveredOnlyIfPaid(SetStatus(order, Some(DELIVERED)).value)
    ensures var delivered := order.(status := Some(DELIVERED), paymentStatus := Some(PaymentCompleted));
            DeliveredOnlyIfPaid(delivered)
            && !DeliveredOnlyIfPaid(SetPaymentStatus(delivered, Some(OtherPaymentStatus("PENDING"))).value)
  {
  }

  // ----- the service

  class AdminService {
    /** The order repository, by id. */
    var orders: map<int, Order>
    const sizeInventoryService: ProductSizeInventoryService

    constructor(orders: map<int, Order>, sizeInventoryService: ProductSizeInventoryService)
      ensures this.orders == orders && this.sizeInventoryService == sizeInventoryService
    {
      this.orders := orders;
      this.sizeInventoryService := sizeInventoryService;
    }

    method UpdateOrderStatusByAdmin(orderId: int, newStatus: Option<Status>) returns (r: Result<OrderResponse, AdminError>)
      modifies this
      ensures orderId !in old(orders) ==> r == Failure(OrderNotFound) && orders == old(orders)
      ensures orderId in old(orders) ==>
                match AdminSetStatus(old(orders)[orderId], newStatus)
                case Failure(e) => r == Failure(e) && orders == old(orders)
                case Success(o) => r == Success(ConvertToOrderResponse(o)) && orders == old(orders)[orderId := o]
    {
      if orderId !in orders {
        return Failure(OrderNotFound);
      }
      var order := orders[orderId];
      if newStatus == Some(DELIVERED) {
        if order.paymentStatus != Some(PaymentCompleted) {
          return Failure(CannotDeliverUnpaid);
        }
      }
      order := order.(status := newStatus);
      orders := orders[orderId := order];
      r := Success(ConvertToOrderResponse(order));
    }

    method UpdateOrderStatus(id: int, status: Option<Status>) returns (r: Result<OrderResponse, AdminError>)
      modifies this
      ensures id !in old(orders) ==> r == Failure(OrderNotFoundWithId(id)) && orders == old(orders)
      ensures id in old(orders) ==>
                match SetStatus(old(orders)[id], status)
                case Failure(e) => r == Failure(e) && orders == old(orders)
                case Success(o) => r == Success(ConvertToOrderResponse(o)) && orders == old(orders)[id := o]
    {
      if id !in orders {
        return Failure(OrderNotFoundWithId(id));
      }
      var order := orders[id];
      if status.None? {
        return Failure(InvalidOrderStatus);
      }
      order := order.(status := status);
      orders := orders[id := order];
      r := Success(ConvertToOrderResponse(order));
    }

    method UpdateOrderPaymentStatus(id: int, paymentStatus: Option<PaymentStatus>) returns (r: Result<OrderResponse, AdminError>)
      modifies this
      ensures id !in old(orders) ==> r == Failure(OrderNotFoundWithId(id)) && orders == old(orders)
      ensures id in old(orders) ==>
                match SetPaymentStatus(old(orders)[id], paymentStatus)
                case Failure(e) => r == Failure(e) && orders == old(orders)
                case Success(o) => r == Success(ConvertToOrderResponse(o)) && orders == old(orders)[id := o]
    {
      if id !in orders {
        return Failure(OrderNotFoundWithId(id));
      }
      var order := orders[id];
      if paymentStatus.None? {
        return Failure(InvalidPaymentStatus);
      }
      order := order.(paymentStatus := paymentStatus);
      orders := orders[id := order];
      r := Success(ConvertToOrderResponse(order));
    }

    /** The administrator's `updateInventory`: the product must exist. */
    method UpdateInventory(productId: ProductId, size: string, quantity: int32) returns (r: Outcome<AdminError>)
      modifies sizeInventoryService
      ensures productId !in old(sizeInventoryService.products) ==>
                r == Fail(UnknownProduct(productId))
                && sizeInventoryService.products == old(sizeInventoryService.products)
      ensures productId in old(sizeInventoryService.products) ==>
                r == Pass
                && sizeInventoryService.products ==
                     old(sizeInventoryService.products)[productId := SetQuantity(old(sizeInventoryService.products)[productId], size, quantity)]
    {
      if productId !in sizeInventoryService.products {
        return Fail(UnknownProduct(productId));
      }
      var _ := sizeInventoryService.UpdateInventory(productId, size, quantity);
      r := Pass;
    }

    /** The size initialisation of `createProduct` for the created product:
        each parsed size is set to quantity 0. A failure (no such product) is
        swallowed, as the source's `catch` does, and changes nothing. */
    method InitializeProductSizes(productId: ProductId, availableSizes: Option<string>)
      modifies sizeInventoryService
      ensures availableSizes.None? || productId !in old(sizeInventoryService.products) ==>
                sizeInventoryService.products == old(sizeInventoryService.products)
      ensures availableSizes.Some? && productId in old(sizeInventoryService.products) ==>
                sizeInventoryService.products ==
                  old(sizeInventoryService.products)[productId :=
                    ZeroSizes(old(sizeInventoryService.products)[productId], ParseSizeList(availableSizes.value))]
    {
      if availableSizes.None? || productId !in sizeInventoryService.products {
        return;
      }
      var sizes := ParseSizeList(availableSizes.value);
      var stored := sizeInventoryService.products[productId];
      ghost var before := sizeInventoryService.products;
      for i := 0 to |sizes|
        invariant sizeInventoryService.products == before[productId := ZeroSizes(stored, sizes[..i])]
      {
        assert sizes[..i + 1][..i] == sizes[..i];
        var _ := sizeInventoryService.UpdateInventory(productId, sizes[i], 0);
      }
      assert sizes[..|sizes|] == sizes;
    }
  }
}
