// Per-size inventory ledger of the back end (ProductSizeInventoryService.java).
// Each product keeps, per size label, the units on hand and the units
// reserved by orders not yet confirmed. The JSON column that stores the
// ledger is treated as the map it parses to.

module SizeInventory {
  import opened Outcomes
  import opened JavaInt
  import Text

  type ProductId = int

  /** One size's stock: units on hand and units held for open orders. */
  datatype SizeInventoryData = SizeInventoryData(quantity: int32, reserved: int32) {
    /** `getAvailable()`: quantity minus reserved, in Java `int` arithmetic. */
    function Available(): int32 {
      Sub(quantity, reserved)
    }
  }

  /** The parsed `sizeInventory` of one product: size label to stock. */
  type Inventory = map<string, SizeInventoryData>

  /** The ledger's arithmetic invariant for one size. */
  predicate Consistent(d: SizeInventoryData) {
    0 <= d.reserved <= d.quantity
  }

  predicate WellFormed(inv: Inventory) {
    forall size :: size in inv ==> Consistent(inv[size])
  }

  /** What `getSizeInventory` hands back for one size. */
  datatype SizeInventoryDTO = SizeInventoryDTO(size: string, quantity: int32, reserved: int32)

  /** The runtime exceptions the service throws. */
  datatype InventoryError =
    | ProductNotFound
    | ProductNotFoundWithId(id: ProductId)
    | SizeNotFound(size: string)
    | Insufficient(size: string, available: int32)
    | NotEnoughReserved
  {
    function Message(): string {
      match this
      case ProductNotFound => "Product not found"
      case ProductNotFoundWithId(id) => "Product not found with ID: " + Text.IntToString(id)
      case SizeNotFound(s) => "Size " + s + " not found for product"
      case Insufficient(s, a) => "Insufficient inventory for size " + s + ". Available: " + Text.IntToString(a)
      case NotEnoughReserved => "Cannot confirm sale: not enough reserved quantity"
    }
  }

  // ----- the ledger operations on one product's inventory

  /** `reserveInventory` once the product is found. */
  function Reserve(inv: Inventory, size: string, quantity: int32): Result<Inventory, InventoryError> {
    if size !in inv then Failure(SizeNotFound(size))
    else if inv[size].Available() < quantity then Failure(Insufficient(size, inv[size].Available()))
    else Success(inv[size := inv[size].(reserved := Add(inv[size].reserved, quantity))])
  }

  /** `releaseReservedInventory` once the product is found; an unknown size is ignored. */
  function Release(inv: Inventory, size: string, quantity: int32): Inventory {
    if size in inv then inv[size := inv[size].(reserved := MaxZero(Sub(inv[size].reserved, quantity)))]
    else inv
  }

  /** `confirmSale` once the product is found. */
  function ConfirmSale(inv: Inventory, size: string, quantity: int32): Result<Inventory, InventoryError> {
    if size !in inv then Failure(SizeNotFound(size))
    else if inv[size].reserved < quantity then Failure(NotEnoughReserved)
    else
      var d := inv[size];
      Success(inv[size := SizeInventoryData(Sub(d.quantity, quantity), Sub(d.reserved, quantity))])
  }

  /** `updateInventory` once the product is found. */
  function SetQuantity(inv: Inventory, size: string, newQuantity: int32): Inventory {
    if size in inv then inv[size := SizeInventoryData(newQuantity, Min(inv[size].reserved, newQuantity))]
    else inv[size := SizeInventoryData(newQuantity, 0)]
  }

  /** `initializeInventoryForProduct` once the product is found: the loop over
      `sizes` after its first `|sizes|` iterations. */
  function AddMissingSizes(inv: Inventory, sizes: seq<string>, quantityPerSize: int32): Inventory
    decreases |sizes|
  {
    if sizes == [] then inv
    else
      var before := AddMissingSizes(inv, sizes[..|sizes| - 1], quantityPerSize);
      var size := sizes[|sizes| - 1];
      if size in before then before else before[size := SizeInventoryData(quantityPerSize, 0)]
  }

  // ----- what the operations promise

  /** `checkAvailability` on a consistent ledger compares the true availability. */
  lemma AvailableIsExact(d: SizeInventoryData)
    requires Consistent(d)
    ensures d.Available() == d.quantity - d.reserved >= 0
  {
  }

  /** A successful reserve raises only that size's `reserved`, by exactly the
      requested amount, and keeps the ledger consistent; it fails exactly on an
      unknown size or when too little is available. */
  lemma ReserveSpec(inv: Inventory, size: string, quantity: int32)
    requires WellFormed(inv) && quantity >= 0
    ensures Reserve(inv, size, quantity).Failure? <==>
              size !in inv || inv[size].quantity - inv[size].reserved < quantity
    ensures Reserve(inv, size, quantity).Success? ==>
              var after := Reserve(inv, size, quantity).value;
              && WellFormed(after)
              && after.Keys == inv.Keys
              && after[size].reserved == inv[size].reserved + quantity
              && after[size].quantity == inv[size].quantity
              && after[size].Available() == inv[size].Available() - quantity
              && (forall other :: other in inv && other != size ==> after[other] == inv[other])
  {
  }

  /** Releasing a size lowers `reserved` towards 0, never touches `quantity`,
      and keeps the ledger consistent. */
  lemma ReleaseSpec(inv: Inventory, size: string, quantity: int32)
    requires WellFormed(inv) && quantity >= 0
    ensures var after := Release(inv, size, quantity);
            && WellFormed(after)
            && after.Keys == inv.Keys
            && (size in inv ==> after[size].quantity == inv[size].quantity
                                && after[size].reserved == if inv[size].reserved < quantity then 0
                                                           else inv[size].reserved - quantity)
            && (forall other :: other in inv && other != size ==> after[other] == inv[other])
            && (size !in inv ==> after == inv)
  {
  }

  /** Reserving and then releasing the same amount restores the ledger. */
  lemma ReserveThenReleaseRestores(inv: Inventory, size: string, quantity: int32)
    requires WellFormed(inv) && quantity >= 0
    requires Reserve(inv, size, quantity).Success?
    ensures Release(Reserve(inv, size, quantity).value, size, quantity) == inv
  {
    var after := Reserve(inv, size, quantity).value;
    assert Release(after, size, quantity)[size] == inv[size];
  }

  /** A sale takes the units out of both `quantity` and `reserved`, so the
      available count is unchanged; it fails exactly on an unknown size or
      when fewer units are reserved than sold. */
  lemma ConfirmSaleSpec(inv: Inventory, size: string, quantity: int32)
    requires WellFormed(inv) && quantity >= 0
    ensures ConfirmSale(inv, size, quantity).Failure? <==>
              size !in inv || inv[size].reserved < quantity
    ensures ConfirmSale(inv, size, quantity).Success? ==>
              var after := ConfirmSale(inv, size, quantity).value;
              && WellFormed(after)
              && after.Keys == inv.Keys
              && after[size].quantity == inv[size].quantity - quantity
              && after[size].reserved == inv[size].reserved - quantity
              && after[size].Available() == inv[size].Available()
              && (forall other :: other in inv && other != size ==> after[other] == inv[other])
  {
  }

  /** Reserving and then confirming a sale of the same amount removes the
      units from stock and leaves the reservations as they were. */
  lemma ReserveThenConfirmSells(inv: Inventory, size: string, quantity: int32)
    requires WellFormed(inv) && quantity >= 0
    requires Reserve(inv, size, quantity).Success?
    ensures ConfirmSale(Reserve(inv, size, quantity).value, size, quantity).Success?
    ensures var sold := ConfirmSale(Reserve(inv, size, quantity).value, size, quantity).value;
            sold == inv[size := SizeInventoryData(inv[size].quantity - quantity, inv[size].reserved)]
  {
  }

  /** Setting a size's quantity to a non-negative value keeps the ledger
      consistent: an existing size keeps at most that many reservations, a
      new size starts with none, and other sizes are untouched. */
  lemma SetQuantitySpec(inv: Inventory, size: string, newQuantity: int32)
    requires WellFormed(inv) && newQuantity >= 0
    ensures var after := SetQuantity(inv, size, newQuantity);
            && WellFormed(after)
            && after.Keys == inv.Keys + {size}
            && after[size].quantity == newQuantity
            && after[size].reserved == (if size in inv && inv[size].reserved < newQuantity
                                        then inv[size].reserved else if size in inv then newQuantity else 0)
            && (forall other :: other in inv && other != size ==> after[other] == inv[other])
  {
  }

  /** Adding missing sizes inserts `(quantityPerSize, 0)` for each listed size
      not yet present and keeps every existing entry as it was. */
  lemma {:induction false} AddMissingSizesSpec(inv: Inventory, sizes: seq<string>, quantityPerSize: int32)
    ensures var after := AddMissingSizes(inv, sizes, quantityPerSize);
            && after.Keys == inv.Keys + (set s | s in sizes)
            && (forall k :: k in inv ==> after[k] == inv[k])
            && (forall k :: k in after && k !in inv ==> after[k] == SizeInventoryData(quantityPerSize, 0))
    decreases |sizes|
  {
    if sizes != [] {
      var init := sizes[..|sizes| - 1];
      AddMissingSizesSpec(inv, init, quantityPerSize);
      assert (set s | s in sizes) == (set s | s in init) + {sizes[|sizes| - 1]} by {
        assert sizes == init + [sizes[|sizes| - 1]];
      }
    }
  }

  /** Initialising the same sizes twice is the same as initialising them once. */
  lemma AddMissingSizesIdempotent(inv: Inventory, sizes: seq<string>, quantityPerSize: int32)
    ensures var once := AddMissingSizes(inv, sizes, quantityPerSize);
            AddMissingSizes(once, sizes, quantityPerSize) == once
  {
    var once := AddMissingSizes(inv, sizes, quantityPerSize);
    AddMissingSizesSpec(inv, sizes, quantityPerSize);
    AddMissingSizesSpec(once, sizes, quantityPerSize);
  }

  /** With a non-negative quantity per size, initialisation keeps the ledger consistent. */
  lemma AddMissingSizesWellFormed(inv: Inventory, sizes: seq<string>, quantityPerSize: int32)
    requires WellFormed(inv) && quantityPerSize >= 0
    ensures WellFormed(AddMissingSizes(inv, sizes, quantityPerSize))
  {
    AddMissingSizesSpec(inv, sizes, quantityPerSize);
  }

  /** A negative reservation request is not rejected: it lowers `reserved`
      below zero and breaks the ledger invariant. */
  lemma NegativeReserveBreaksInvariant()
    ensures var inv := map["9" := SizeInventoryData(5, 0)];
            && WellFormed(inv)
            && Reserve(inv, "9", -1).Success?
            && !WellFormed(Reserve(inv, "9", -1).value)
  {
    var inv := map["9" := SizeInventoryData(5, 0)];
    assert Reserve(inv, "9", -1).value["9"].reserved == -1;
  }

  // ----- the service: the product repository's ledgers, updated in place

  class ProductSizeInventoryService {
    /** Each stored product's parsed size inventory. */
    var products: map<ProductId, Inventory>

    constructor(products: map<ProductId, Inventory>)
      ensures this.products == products
    {
      this.products := products;
    }

    method GetSizeInventory(productId: ProductId, size: string) returns (r: Result<Option<SizeInventoryDTO>, InventoryError>)
      ensures productId !in products <==> r == Failure(ProductNotFound)
      ensures productId in products ==>
                r == Success(if size in products[productId]
                             then Some(SizeInventoryDTO(size, products[productId][size].quantity,
                                                        products[productId][size].reserved))
                             else None)
    {
      if productId !in products {
        return Failure(ProductNotFound);
      }
      var inventory := products[productId];
      if size !in inventory {
        return Success(None);
      }
      var data := inventory[size];
      r := Success(Some(SizeInventoryDTO(size, data.quantity, data.reserved)));
    }

    method CheckAvailability(productId: ProductId, size: string, requestedQuantity: int32) returns (r: Result<bool, InventoryError>)
      ensures productId !in products <==> r == Failure(ProductNotFound)
      ensures r.Success? && size !in products[productId] ==> !r.value
      ensures r.Success? && size in products[productId] ==>
                (r.value <==> products[productId][size].Available() >= requestedQuantity)
      ensures r.Success? && size in products[productId] && WellFormed(products[productId]) ==>
                (r.value <==> products[productId][size].quantity - products[productId][size].reserved >= requestedQuantity)
    {
      if productId !in products {
        return Failure(ProductNotFound);
      }
      var inventory := products[productId];
      if size !in inventory {
        return Success(false);
      }
      var data := inventory[size];
      r := Success(data.Available() >= requestedQuantity);
    }

    method HasAvailableInventory(productId: ProductId) returns (r: Result<bool, InventoryError>)
      ensures productId !in products <==> r == Failure(ProductNotFound)
      ensures r.Success? ==>
                (r.value <==> exists size :: size in products[productId] && products[productId][size].Available() > 0)
    {
      if productId !in products {
        return Failure(ProductNotFound);
      }
      var inventory := products[productId];
      r := Success(exists size | size in inventory :: inventory[size].Available() > 0);
    }

    method ReserveInventory(productId: ProductId, size: string, quantity: int32) returns (r: Outcome<InventoryError>)
      modifies this
      ensures productId !in old(products) ==> r == Fail(ProductNotFound) && products == old(products)
      ensures productId in old(products) ==>
                match Reserve(old(products)[productId], size, quantity)
                case Failure(e) => r == Fail(e) && products == old(products)
                case Success(inv) => r == Pass && products == old(products)[productId := inv]
    {
      if productId !in products {
        return Fail(ProductNotFound);
      }
      var inventory := products[productId];
      if size !in inventory {
        return Fail(SizeNotFound(size));
      }
      var data := inventory[size];
      if data.Available() < quantity {
        return Fail(Insufficient(size, data.Available()));
      }
      data := data.(reserved := Add(data.reserved, quantity));
      inventory := inventory[size := data];
      products := products[productId := inventory];
      r := Pass;
    }

    method ReleaseReservedInventory(productId: ProductId, size: string, quantity: int32) returns (r: Outcome<InventoryError>)
      modifies this
      ensures productId !in old(products) ==> r == Fail(ProductNotFound) && products == old(products)
      ensures productId in old(products) ==>
                r == Pass && products == old(products)[productId := Release(old(products)[productId], size, quantity)]
      ensures productId in old(products) && size !in old(products)[productId] ==> products == old(products)
    {
      if productId !in products {
        return Fail(ProductNotFound);
      }
      var inventory := products[productId];
      if size in inventory {
        var data := inventory[size];
        data := data.(reserved := MaxZero(Sub(data.reserved, quantity)));
        inventory := inventory[size := data];
        products := products[productId := inventory];
      }
      r := Pass;
    }

    method ConfirmSaleOf(productId: ProductId, size: string, quantity: int32) returns (r: Outcome<InventoryError>)
      modifies this
      ensures productId !in old(products) ==> r == Fail(ProductNotFound) && products == old(products)
      ensures productId in old(products) ==>
                match ConfirmSale(old(products)[productId], size, quantity)
                case Failure(e) => r == Fail(e) && products == old(products)
                case Success(inv) => r == Pass && products == old(products)[productId := inv]
    {
      if productId !in products {
        return Fail(ProductNotFound);
      }
      var inventory := products[productId];
      if size !in inventory {
        return Fail(SizeNotFound(size));
      }
      var data := inventory[size];
      if data.reserved < quantity {
        return Fail(NotEnoughReserved);
      }
      data := data.(quantity := Sub(data.quantity, quantity));
      data := data.(reserved := Sub(data.reserved, quantity));
      inventory := inventory[size := data];
      products := products[productId := inventory];
      r := Pass;
    }

    method InitializeInventoryForProduct(productId: ProductId, sizes: seq<string>, quantityPerSize: int32)
      returns (r: Outcome<InventoryError>)
      modifies this
      ensures productId !in old(products) ==> r == Fail(ProductNotFoundWithId(productId)) && products == old(products)
      ensures productId in old(products) ==>
                r == Pass && products == old(products)[productId := AddMissingSizes(old(products)[productId], sizes, quantityPerSize)]
    {
      if productId !in products {
        return Fail(ProductNotFoundWithId(productId));
      }
      var stored := products[productId];
      var inventory := stored;
      for i := 0 to |sizes|
        invariant inventory == AddMissingSizes(stored, sizes[..i], quantityPerSize)
      {
        assert sizes[..i + 1][..i] == sizes[..i];
        if sizes[i] !in inventory {
          inventory := inventory[sizes[i] := SizeInventoryData(quantityPerSize, 0)];
        }
      }
      assert sizes[..|sizes|] == sizes;
      products := products[productId := inventory];
      r := Pass;
    }

    method UpdateInventory(productId: ProductId, size: string, newQuantity: int32) returns (r: Outcome<InventoryError>)
      modifies this
      ensures productId !in old(products) ==> r == Fail(ProductNotFound) && products == old(products)
      ensures productId in old(products) ==>
                r == Pass && products == old(products)[productId := SetQuantity(old(products)[productId], size, newQuantity)]
    {
      if productId !in products {
        return Fail(ProductNotFound);
      }
      var inventory := products[productId];
      if size in inventory {
        var data := inventory[size];
        data := data.(quantity := newQuantity);
        data := data.(reserved := Min(data.reserved, newQuantity));
        inventory := inventory[size := data];
      } else {
        inventory := inventory[size := SizeInventoryData(newQuantity, 0)];
      }
      products := products[productId := inventory];
      r := Pass;
    }
  }
}
