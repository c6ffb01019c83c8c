/** The close-position modal of src/UI/components/TableOrder/Positions/ClosePositionModal.tsx:
    it builds a one-leg order closing a percentage of a position, estimates its lock and
    fees, and submits it to the auction. Number parsing (`getNumber`), the net-price
    calculation and the client order id come from libraries and are parameters here, as
    are the outcomes of the SDK's estimation and order calls. */
module ClosePosition {
  import opened Wrappers
  import Toasts

  datatype Side = BUY | SELL

  /** The position row the modal closes. */
  datatype PositionRow = PositionRow(product: string, strike: real, quantity: real, averagePrice: real)

  datatype Leg = Leg(contractId: int, quantity: real, side: Side)

  datatype Order = Order(clientOrderId: int, totalNetPrice: real, legs: seq<Leg>)

  /** The estimated order lock and fees, as far as the modal keeps them. */
  datatype Estimate = Estimate(orderLock: real, orderFees: real)

  /** The order summary: lock and fees are None (null) when estimation failed. */
  datatype OrderSummary = OrderSummary(order: Order, orderLock: Option<real>, orderFees: Option<real>)

  datatype AuctionSubmission = AuctionSubmission(order: Order, kind: string)

  const NEXT_AUCTION: string := "NEXT_AUCTION"
  const POSITION_BUILDER: string := "Position Builder"
  const INITIAL_SELL_VALUE: string := "100"
  const SUGGESTED_OPTIONS: seq<string> := ["25", "50", "100"]

  function Abs(x: real): real { if x < 0.0 then -x else x }

  /** The single leg closing `percent` per cent of the row: the spot contract for the next
      auction, otherwise the contract listed at the row's strike (None when there is none:
      the lookup throws). */
  function CloseLeg(row: PositionRow, percent: real, spotContractId: int, contractsList: map<real, int>): (r: Option<Leg>)
    ensures r.None? <==> row.product != NEXT_AUCTION && row.strike !in contractsList
    ensures r.Some? ==> r.value.quantity == Abs(row.quantity) * (percent / 100.0)
    ensures r.Some? ==> (r.value.side == SELL <==> row.quantity < 0.0)
    ensures r.Some? && row.product == NEXT_AUCTION ==> r.value.contractId == spotContractId
    ensures r.Some? && row.product != NEXT_AUCTION ==> r.value.contractId == contractsList[row.strike]
  {
    var side := if row.quantity < 0.0 then SELL else BUY;
    var size := Abs(row.quantity) * (percent / 100.0);
    if row.product == NEXT_AUCTION then Some(Leg(spotContractId, size, side))
    else if row.strike in contractsList then Some(Leg(contractsList[row.strike], size, side))
    else None
  }

  /** The sizes of the suggested options: a quarter, a half and all of the position. */
  lemma CloseLegSizes(row: PositionRow, spotContractId: int, contractsList: map<real, int>)
    requires row.product == NEXT_AUCTION || row.strike in contractsList
    ensures CloseLeg(row, 25.0, spotContractId, contractsList).value.quantity == Abs(row.quantity) / 4.0
    ensures CloseLeg(row, 50.0, spotContractId, contractsList).value.quantity == Abs(row.quantity) / 2.0
    ensures CloseLeg(row, 100.0, spotContractId, contractsList).value.quantity == Abs(row.quantity)
  {
  }

  /** For a percentage in 0..100 the size is never negative and never exceeds the position. */
  lemma CloseLegWithinPosition(row: PositionRow, spotContractId: int, contractsList: map<real, int>, percent: real)
    requires row.product == NEXT_AUCTION || row.strike in contractsList
    requires 0.0 <= percent <= 100.0
    ensures 0.0 <= CloseLeg(row, percent, spotContractId, contractsList).value.quantity <= Abs(row.quantity)
  {
    var q := Abs(row.quantity);
    var f := percent / 100.0;
    assert 0.0 <= f <= 1.0;
    assert q - q * f == q * (1.0 - f);
    assert 0.0 <= q * (1.0 - f);
    assert 0.0 <= q * f;
  }

  /** A row's close leg differs between a long and the opposite short position only in its
      side: same contract, same size. */
  lemma OppositePositionOppositeSide(row: PositionRow, percent: real, spotContractId: int, contractsList: map<real, int>)
    requires row.quantity > 0.0
    requires row.product == NEXT_AUCTION || row.strike in contractsList
    ensures var short := row.(quantity := -row.quantity);
      var long := CloseLeg(row, percent, spotContractId, contractsList).value;
      var shortLeg := CloseLeg(short, percent, spotContractId, contractsList).value;
      long.side == BUY && shortLeg.side == SELL &&
      long.contractId == shortLeg.contractId && long.quantity == shortLeg.quantity
  {
  }

  /** `getStrategiesFormatted`: one row when there is both a summary and a position, with the
      summary's first leg. */
  datatype StrategyRow = StrategyRow(leg: Leg, referencePrice: real, payoff: string, strike: real)

  function StrategiesFormatted(orderSummary: Option<OrderSummary>, row: Option<PositionRow>): (r: seq<StrategyRow>)
    requires orderSummary.Some? ==> |orderSummary.value.order.legs| > 0
    ensures |r| <= 1
    ensures r != [] <==> orderSummary.Some? && row.Some?
    ensures r != [] ==> r[0].leg in orderSummary.value.order.legs
  {
    if orderSummary.None? || row.None? then []
    else [StrategyRow(orderSummary.value.order.legs[0], row.value.averagePrice, row.value.product, row.value.strike)]
  }

  /** For a one-leg order, which is what the modal builds, the strategy table shows exactly
      that leg, priced at the position's average price, with its product and strike. */
  lemma StrategiesShowOnlyLeg(summary: OrderSummary, row: PositionRow, leg: Leg)
    requires summary.order.legs == [leg]
    ensures StrategiesFormatted(Some(summary), Some(row)) ==
            [StrategyRow(leg, row.averagePrice, row.product, row.strike)]
  {
  }

  class ClosePositionModal {
    /** The row being closed (`closePositionRow`), None when the modal is not open. */
    const row: Option<PositionRow>
    const toasts: Toasts.ToastStore
    var sellValue: string
    var orderSummary: Option<OrderSummary>
    var auctionSubmission: Option<AuctionSubmission>
    /** How many times the parent's `closeModal` has been called. */
    var closeRequests: nat

    /** Every summary the modal holds has the one leg it was built with. */
    ghost predicate Valid()
      reads this
    {
      (orderSummary.Some? ==> |orderSummary.value.order.legs| == 1) &&
      (auctionSubmission.Some? ==> |auctionSubmission.value.order.legs| == 1 &&
                                   auctionSubmission.value.kind == POSITION_BUILDER)
    }

    /** The rows of the modal's strategy table. */
    function Strategies(): (r: seq<StrategyRow>)
      requires Valid()
      reads this
      ensures |r| <= 1
    {
      StrategiesFormatted(orderSummary, row)
    }

    constructor (row: Option<PositionRow>, toasts: Toasts.ToastStore)
      ensures Valid()
      ensures this.row == row && this.toasts == toasts
      ensures sellValue == INITIAL_SELL_VALUE && orderSummary.None? && auctionSubmission.None? && closeRequests == 0
    {
      this.row := row;
      this.toasts := toasts;
      sellValue := INITIAL_SELL_VALUE;
      orderSummary := None;
      auctionSubmission := None;
      closeRequests := 0;
    }

    /** `prepareOrder`. `toNumber` is `getNumber`; `netPrice(leg, averagePrice)` stands for
        `calculateNetPrice`; `estimate` is the pair of estimations, or None when either
        rejects. A missing contract throws before the `try`, leaving the state as it was. */
    method PrepareOrder(toNumber: string -> real, spotContractId: int, contractsList: map<real, int>,
                        netPrice: (Leg, real) -> real, clientOrderId: int, estimate: Option<Estimate>)
      requires Valid()
      modifies this
      ensures Valid()
      ensures row.None? || sellValue == "" ==>
        orderSummary == old(orderSummary) && auctionSubmission == old(auctionSubmission)
      ensures row.Some? && sellValue != "" ==>
        var leg := CloseLeg(row.value, toNumber(sellValue), spotContractId, contractsList);
        (leg.None? ==> orderSummary == old(orderSummary) && auctionSubmission == old(auctionSubmission)) &&
        (leg.Some? ==>
          var order := Order(clientOrderId, netPrice(leg.value, row.value.averagePrice), [leg.value]);
          (estimate.Some? ==>
             orderSummary == Some(OrderSummary(order, Some(estimate.value.orderLock), Some(estimate.value.orderFees))) &&
             auctionSubmission == Some(AuctionSubmission(order, POSITION_BUILDER))) &&
          (estimate.None? ==>
             orderSummary == Some(OrderSummary(order, None, None)) && auctionSubmission == old(auctionSubmission)) &&
          Strategies() == [StrategyRow(leg.value, row.value.averagePrice, row.value.product, row.value.strike)])
      ensures sellValue == old(sellValue) && closeRequests == old(closeRequests)
    {
      if row.None? || sellValue == "" {
        return;
      }
      var position := row.value;
      var leg := CloseLeg(position, toNumber(sellValue), spotContractId, contractsList);
      if leg.None? {
        return;
      }
      var order := Order(clientOrderId, netPrice(leg.value, position.averagePrice), [leg.value]);
      match estimate {
        case Some(e) =>
          orderSummary := Some(OrderSummary(order, Some(e.orderLock), Some(e.orderFees)));
          auctionSubmission := Some(AuctionSubmission(order, POSITION_BUILDER));
        case None =>
          orderSummary := Some(OrderSummary(order, None, None));
      }
    }

    /** `submitOrder` followed by `submitToAuction`; `newOrderOk` is whether the SDK accepts
        the order. */
    method SubmitOrder(newOrderOk: bool, toastId: int)
      requires Valid()
      modifies this, toasts
      ensures Valid()
      ensures old(auctionSubmission).None? ==>
        toasts.toastList == old(toasts.toastList) && closeRequests == old(closeRequests) &&
        auctionSubmission == old(auctionSubmission) && toasts.position == old(toasts.position)
      ensures old(auctionSubmission).Some? ==>
        auctionSubmission.None? && closeRequests == old(closeRequests) + 1 &&
        toasts.toastList == old(toasts.toastList) +
          [if newOrderOk then Toasts.OrderConfirmationToast(toastId) else Toasts.OrderErrorToast(toastId)] &&
        toasts.position == Toasts.BOTTOM_RIGHT
      ensures orderSummary == old(orderSummary) && sellValue == old(sellValue)
    {
      if auctionSubmission.None? {
        return;
      }
      if newOrderOk {
        toasts.ShowOrderConfirmationToast(toastId);
      } else {
        toasts.ShowOrderErrorToast(toastId);
      }
      auctionSubmission := None;
      closeRequests := closeRequests + 1;
    }
  }
}
