/** The toast buffer of src/UI/hooks/useToast.tsx: a list of toast items and a
    position, replaced by an appended copy on every `showToast`, and four typed
    helpers built on it. Toast ids come from `Math.random` in the source and are
    parameters here. */
module Toasts {
  import opened Wrappers

  /** One toast, as ToastItemProp; fields that a caller may leave undefined are options. */
  datatype ToastItem = ToastItem(
    id: int,
    title: Option<string>,
    message: Option<string>,
    kind: Option<string>,        // the `type` field
    netPrice: Option<string>,
    viewOrder: bool)

  const BOTTOM_RIGHT: string := "bottom-right"
  const INFO: string := "info"
  const ERROR: string := "error"
  const SUCCESS: string := "success"

  /** A toast with a title, a message and a type, as every helper builds it. */
  function BasicToast(id: int, title: string, message: string, kind: string): (t: ToastItem)
    ensures t.title == Some(title) && t.message == Some(message) && t.kind == Some(kind)
    ensures t.id == id && t.netPrice.None? && !t.viewOrder
  {
    ToastItem(id, Some(title), Some(message), Some(kind), None, false)
  }

  /** What `showSuccessToast` appends: note the type is "info", not "success". */
  function SuccessToast(id: int, title: string, message: string): (t: ToastItem)
    ensures t.kind == Some(INFO) && t.title == Some(title) && t.message == Some(message) && t.id == id
  {
    BasicToast(id, title, message, INFO)
  }

  function ErrorToast(id: int, title: string, message: string): (t: ToastItem)
    ensures t.kind == Some(ERROR) && t.title == Some(title) && t.message == Some(message) && t.id == id
  {
    BasicToast(id, title, message, ERROR)
  }

  const ORDER_CONFIRMATION_TITLE: string := "Transaction Confirmed"
  const ORDER_CONFIRMATION_MESSAGE: string := "Order received & submitted into the auction"
  const ORDER_ERROR_TITLE: string := "Failed to Send Order"
  const ORDER_ERROR_MESSAGE: string := "Failed to Send Order, please try again."

  function OrderConfirmationToast(id: int): (t: ToastItem)
    ensures t.kind == Some(INFO) && t.title == Some(ORDER_CONFIRMATION_TITLE) && t.id == id
  {
    SuccessToast(id, ORDER_CONFIRMATION_TITLE, ORDER_CONFIRMATION_MESSAGE)
  }

  function OrderErrorToast(id: int): (t: ToastItem)
    ensures t.kind == Some(ERROR) && t.title == Some(ORDER_ERROR_TITLE) && t.id == id
  {
    BasicToast(id, ORDER_ERROR_TITLE, ORDER_ERROR_MESSAGE, ERROR)
  }

  /** The types the helpers produce: success and order-confirmation toasts are "info",
      error and order-error toasts are "error". */
  lemma HelperToastTypes(id: int, title: string, message: string)
    ensures SuccessToast(id, title, message).kind == Some(INFO) != Some(SUCCESS)
    ensures ErrorToast(id, title, message).kind == Some(ERROR)
    ensures OrderConfirmationToast(id).kind == Some(INFO)
    ensures OrderConfirmationToast(id) == SuccessToast(id, ORDER_CONFIRMATION_TITLE, ORDER_CONFIRMATION_MESSAGE)
    ensures OrderErrorToast(id).kind == Some(ERROR) && OrderErrorToast(id).title == Some(ORDER_ERROR_TITLE)
  {
    assert INFO[0] != SUCCESS[0];
  }

  /** The state of one `useToast()` instance. */
  class ToastStore {
    var toastList: seq<ToastItem>
    var position: string

    constructor ()
      ensures toastList == [] && position == BOTTOM_RIGHT
    {
      toastList := [];
      position := BOTTOM_RIGHT;
    }

    /** Appends the toast at the end and records the position. */
    method ShowToast(newToast: ToastItem, newPosition: string)
      modifies this
      ensures toastList == old(toastList) + [newToast]
      ensures position == newPosition
    {
      toastList := toastList + [newToast];
      position := newPosition;
    }

    method ShowSuccessToast(id: int, title: string, message: string)
      modifies this
      ensures toastList == old(toastList) + [SuccessToast(id, title, message)]
      ensures toastList[|toastList| - 1].kind == Some(INFO)
      ensures position == BOTTOM_RIGHT
    {
      ShowToast(SuccessToast(id, title, message), BOTTOM_RIGHT);
    }

    method ShowErrorToast(id: int, title: string, message: string)
      modifies this
      ensures toastList == old(toastList) + [ErrorToast(id, title, message)]
      ensures toastList[|toastList| - 1].kind == Some(ERROR)
      ensures position == BOTTOM_RIGHT
    {
      ShowToast(ErrorToast(id, title, message), BOTTOM_RIGHT);
    }

    method ShowOrderConfirmationToast(id: int)
      modifies this
      ensures toastList == old(toastList) + [OrderConfirmationToast(id)]
      ensures toastList[|toastList| - 1].kind == Some(INFO)
      ensures position == BOTTOM_RIGHT
    {
      ShowSuccessToast(id, ORDER_CONFIRMATION_TITLE, ORDER_CONFIRMATION_MESSAGE);
    }

    method ShowOrderErrorToast(id: int)
      modifies this
      ensures toastList == old(toastList) + [OrderErrorToast(id)]
      ensures toastList[|toastList| - 1].kind == Some(ERROR)
      ensures toastList[|toastList| - 1].title == Some(ORDER_ERROR_TITLE)
      ensures position == BOTTOM_RIGHT
    {
      ShowToast(OrderErrorToast(id), BOTTOM_RIGHT);
    }
  }
}
