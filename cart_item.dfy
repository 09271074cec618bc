// One cart row (CartItem.jsx): the quantity buttons, the remove button, the
// selection checkbox, and the confirmation asked before the last unit goes.
// The row's item and its loading flag are props and arrive with each event;
// the only state the row owns is the pending confirmation.

module CartRow {
  import opened Outcomes
  import opened Cart

  class CartItem {
    var confirmRemove: Option<PendingRemoval>

    constructor()
      ensures confirmRemove == None
    {
      confirmRemove := None;
    }

    /** The `-` button: one unit less while more than one is left; at one unit
        it only asks for confirmation. Disabled while the row is loading. */
    method Minus(item: LineItem, isLoading: bool) returns (call: Option<CartCall>)
      modifies this
      ensures !isLoading && item.quantity > 1 ==>
                call == Some(UpdateQuantityCall(item.id, item.quantity - 1, item.size))
                && confirmRemove == old(confirmRemove)
      ensures !isLoading && item.quantity == 1 ==>
                call == None && confirmRemove == Some(PendingRemoval(item))
      ensures isLoading || item.quantity < 1 ==>
                call == None && confirmRemove == old(confirmRemove)
    {
      call := None;
      if !isLoading {
        if item.quantity > 1 {
          call := Some(UpdateQuantityCall(item.id, item.quantity - 1, item.size));
        } else if item.quantity == 1 {
          confirmRemove := Some(PendingRemoval(item));
        }
      }
    }

    /** The `+` button. */
    method Plus(item: LineItem, isLoading: bool) returns (call: Option<CartCall>)
      ensures isLoading <==> call == None
      ensures !isLoading ==> call.value == UpdateQuantityCall(item.id, item.quantity + 1, item.size)
    {
      if isLoading {
        call := None;
      } else {
        call := Some(UpdateQuantityCall(item.id, item.quantity + 1, item.size));
      }
    }

    /** The `×` button removes the row straight away, without confirmation. */
    method RemoveButton(item: LineItem, isLoading: bool) returns (call: Option<CartCall>)
      ensures isLoading <==> call == None
      ensures !isLoading ==> call.value == RemoveFromCartCall(item.id, item.size)
    {
      if isLoading {
        call := None;
      } else {
        call := Some(RemoveFromCartCall(item.id, item.size));
      }
    }

    /** The checkbox reports the row and its new checked state to `onSelect`. */
    method Checkbox(item: LineItem, isLoading: bool, checked: bool) returns (selection: Option<(LineItem, bool)>)
      ensures isLoading <==> selection == None
      ensures !isLoading ==> selection.value == (item, checked)
    {
      if isLoading {
        selection := None;
      } else {
        selection := Some((item, checked));
      }
    }

    /** The dialog's Remove button: removes the row the dialog was raised for
        and closes the dialog (the removal is not awaited). */
    method ConfirmRemoval() returns (call: CartCall)
      requires confirmRemove.Some?
      modifies this
      ensures call == old(confirmRemove).value.RemovalCall()
      ensures confirmRemove == None
    {
      call := confirmRemove.value.RemovalCall();
      confirmRemove := None;
    }

    /** The dialog's Cancel button. */
    method CancelRemoval()
      modifies this
      ensures confirmRemove == None
    {
      confirmRemove := None;
    }

    /** A click on the overlay around the dialog dismisses it like Cancel. */
    method OverlayClick()
      modifies this
      ensures confirmRemove == None
    {
      confirmRemove := None;
    }
  }

  /** Pressing `-` on the last unit removes nothing by itself; confirming then
      removes exactly that row. */
  method DecrementLastUnitThenConfirm(row: CartItem, item: LineItem) returns (first: Option<CartCall>, second: CartCall)
    requires item.quantity == 1
    modifies row
    ensures first == None
    ensures second == RemoveFromCartCall(item.id, item.size)
    ensures row.confirmRemove == None
  {
    first := row.Minus(item, false);
    second := row.ConfirmRemoval();
  }

  /** Pressing `-` on the last unit and then cancelling changes nothing in the cart. */
  method DecrementLastUnitThenCancel(row: CartItem, item: LineItem) returns (first: Option<CartCall>)
    requires item.quantity == 1
    modifies row
    ensures first == None
    ensures row.confirmRemove == None
  {
    first := row.Minus(item, false);
    row.CancelRemoval();
  }
}
