/** The application shell of src/pages/_app.tsx: the toast built for each order-status
    socket message, the gating of points pages, the delay of the next expiry re-check and
    the maintenance switch. Environment variables, query parameters and the router path are
    parameters. */
module AppShell {
  import opened Wrappers
  import Text
  import Toasts
  import SdkStore

  const NEW: string := "NEW"
  const FILLED: string := "FILLED"
  const REJECTED: string := "REJECTED"
  const CANCEL_REJECTED: string := "CANCEL_REJECTED"

  /** `STATUS_MAP[status]`: undefined for any other status. */
  function StatusType(status: string): (r: Option<string>)
    ensures r == Some(Toasts.SUCCESS) <==> status == NEW || status == FILLED
    ensures r.Some? ==> r.value in {Toasts.SUCCESS, Toasts.ERROR, Toasts.INFO}
  {
    if status == NEW || status == FILLED then Some(Toasts.SUCCESS)
    else if status == REJECTED then Some(Toasts.ERROR)
    else if status == CANCEL_REJECTED then Some(Toasts.INFO)
    else None
  }

  /** `TITLE_MAP[status]` */
  function StatusTitle(status: string): (r: Option<string>)
    ensures r.Some? ==> |r.value| > 6 && r.value[..6] == "Order "
  {
    if status == NEW then Some("Order Placed")
    else if status == FILLED then Some("Order Executed")
    else if status == REJECTED then Some("Order Rejected")
    else if status == CANCEL_REJECTED then Some("Order Cancelled")
    else None
  }

  /** `MESSAGE_MAP[status]` */
  function StatusMessage(status: string): (r: Option<string>)
    ensures r.Some? ==> r.value != ""
  {
    if status == NEW then Some("We have received your order")
    else if status == FILLED then Some("Position details will be updated shortly")
    else if status == REJECTED then Some("Order Rejected, please try again")
    else if status == CANCEL_REJECTED then Some("We have received your request")
    else None
  }

  predicate KnownStatus(status: string) {
    status in {NEW, FILLED, REJECTED, CANCEL_REJECTED}
  }

  /** The toast shown for a socket order. */
  function OrderToast(order: SdkStore.SocketOrder, id: int): (t: Toasts.ToastItem)
    ensures t.id == id
    ensures t.title == StatusTitle(order.orderStatus) && t.kind == StatusType(order.orderStatus)
    ensures order.ordRejReason.Some? && order.ordRejReason.value != "" ==> t.message == order.ordRejReason
    ensures !(order.ordRejReason.Some? && order.ordRejReason.value != "") ==> t.message == StatusMessage(order.orderStatus)
    ensures t.netPrice == order.netPrice
    ensures t.viewOrder <==> order.orderStatus == NEW || order.orderStatus == FILLED
  {
    var message := if order.ordRejReason.Some? && order.ordRejReason.value != "" then order.ordRejReason
                   else StatusMessage(order.orderStatus);
    Toasts.ToastItem(id, StatusTitle(order.orderStatus), message, StatusType(order.orderStatus), order.netPrice,
                     order.orderStatus == NEW || order.orderStatus == FILLED)
  }

  /** The three maps cover the same four statuses: a known status gets a title, a type
      and a default message, any other status none of them. */
  lemma MapsCoverKnownStatuses(status: string)
    ensures KnownStatus(status) <==> StatusType(status).Some?
    ensures KnownStatus(status) <==> StatusTitle(status).Some?
    ensures KnownStatus(status) <==> StatusMessage(status).Some?
  {
  }

  /** Placed and executed orders are "success" toasts with a "view order" link; rejections
      are "error"; a rejected cancellation is "info"; neither offers the link. */
  lemma KnownStatusToasts(order: SdkStore.SocketOrder, id: int)
    requires order.ordRejReason.None?
    ensures order.orderStatus == NEW ==>
      OrderToast(order, id).kind == Some(Toasts.SUCCESS) && OrderToast(order, id).viewOrder &&
      OrderToast(order, id).title == Some("Order Placed") &&
      OrderToast(order, id).message == Some("We have received your order")
    ensures order.orderStatus == FILLED ==>
      OrderToast(order, id).kind == Some(Toasts.SUCCESS) && OrderToast(order, id).viewOrder &&
      OrderToast(order, id).title == Some("Order Executed")
    ensures order.orderStatus == REJECTED ==>
      OrderToast(order, id).kind == Some(Toasts.ERROR) && !OrderToast(order, id).viewOrder &&
      OrderToast(order, id).message == Some("Order Rejected, please try again")
    ensures order.orderStatus == CANCEL_REJECTED ==>
      OrderToast(order, id).kind == Some(Toasts.INFO) && !OrderToast(order, id).viewOrder &&
      OrderToast(order, id).title == Some("Order Cancelled")
  {
    assert NEW[0] != FILLED[0] && NEW[0] != REJECTED[0] && NEW[0] != CANCEL_REJECTED[0];
    assert FILLED[0] != REJECTED[0] && FILLED[0] != CANCEL_REJECTED[0] && REJECTED[0] != CANCEL_REJECTED[0];
  }

  /** A rejection reason, when given, replaces the default message of every status. */
  lemma RejectionReasonWins(order: SdkStore.SocketOrder, id: int)
    requires order.ordRejReason.Some? && order.ordRejReason.value != ""
    ensures OrderToast(order, id).message == order.ordRejReason
  {
  }

  const POINTS_PATH: string := "/points/"

  /** `contentAllowed` after the routing effect: on a points path with points disabled
      (`allowedEnv` is `NEXT_PUBLIC_POINTS_ALLOWED`), whether the `allowed` query
      parameter is present; otherwise unchanged. */
  function ContentAllowedAfter(previous: bool, asPath: string, allowedEnv: Option<string>,
                               allowedParam: Option<string>): (r: bool)
    ensures Text.Contains(asPath, POINTS_PATH) && allowedEnv == Some("false") ==> (r <==> allowedParam.Some?)
    ensures !(Text.Contains(asPath, POINTS_PATH) && allowedEnv == Some("false")) ==> r == previous
  {
    if Text.Contains(asPath, POINTS_PATH) && allowedEnv == Some("false") then allowedParam.Some? else previous
  }

  /** A points page is hidden without the parameter, and other pages are never gated. */
  lemma PointsGatingExamples(previous: bool)
    ensures !ContentAllowedAfter(true, "/points/leaderboard", Some("false"), None)
    ensures ContentAllowedAfter(false, "/points/leaderboard", Some("false"), Some(""))
    ensures ContentAllowedAfter(previous, "/trading", Some("false"), None) == previous
    ensures ContentAllowedAfter(previous, "/points/leaderboard", Some("true"), None) == previous
  {
    var p := "/points/leaderboard";
    assert p[..|POINTS_PATH|] == POINTS_PATH;
    var t := "/trading";
    assert t[..|POINTS_PATH|][1] != POINTS_PATH[1];
    assert |t[1..]| < |POINTS_PATH|;
    assert !Text.Contains(t, POINTS_PATH);
  }

  const EXPIRY_RECHECK_FALLBACK: int := 5000

  /** The delay before the next expiry re-check: the time left until the first expiry,
      or 5 seconds once it has passed. It is always positive. */
  function RecheckDelay(delta: int): (r: int)
    ensures r > 0
    ensures delta > 0 ==> r == delta
    ensures delta <= 0 ==> r == EXPIRY_RECHECK_FALLBACK
  {
    if delta > 0 then delta else EXPIRY_RECHECK_FALLBACK
  }

  datatype Page = PlugPage | ComponentPage

  /** What the shell renders: only the Plug in maintenance; otherwise the page Component,
      or the Plug when content is not allowed. */
  function RenderedPage(isMaintenanceEnabled: bool, contentAllowed: bool): (p: Page)
    ensures isMaintenanceEnabled ==> p == PlugPage
    ensures !isMaintenanceEnabled ==> (p == ComponentPage <==> contentAllowed)
  {
    if isMaintenanceEnabled then PlugPage
    else if contentAllowed then ComponentPage
    else PlugPage
  }

  class Shell {
    const toasts: Toasts.ToastStore
    var contentAllowed: bool

    constructor (toasts: Toasts.ToastStore)
      ensures this.toasts == toasts && contentAllowed
    {
      this.toasts := toasts;
      contentAllowed := true;
    }

    /** The routing effect. */
    method OnRouteChanged(asPath: string, allowedEnv: Option<string>, allowedParam: Option<string>)
      modifies this
      ensures contentAllowed == ContentAllowedAfter(old(contentAllowed), asPath, allowedEnv, allowedParam)
    {
      if Text.Contains(asPath, POINTS_PATH) && allowedEnv == Some("false") {
        contentAllowed := allowedParam.Some?;
      }
    }

    /** The effect on the store's `newToast`: a toast for each new socket message. */
    method OnNewToast(newToast: Option<SdkStore.SocketOrder>, id: int)
      modifies toasts
      ensures newToast.None? ==> toasts.toastList == old(toasts.toastList) && toasts.position == old(toasts.position)
      ensures newToast.Some? ==> toasts.toastList == old(toasts.toastList) + [OrderToast(newToast.value, id)]
      ensures newToast.Some? ==> toasts.position == Toasts.BOTTOM_RIGHT
    {
      if newToast.Some? {
        toasts.ShowToast(OrderToast(newToast.value, id), Toasts.BOTTOM_RIGHT);
      }
    }
  }
}
