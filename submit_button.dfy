/** The submit button of the order summary, src/UI/components/OrderSummary/SubmitButton.tsx:
    whether the premium and the order are valid, whether the button is disabled, what a
    click does, the warning under it and which button is shown. The premium calculators
    of the order-summary helpers are parameters. */
module SubmitButton {
  import opened Wrappers

  datatype OrderFees = OrderFees(numeraireAmount: Option<real>)

  /** The parts of an order summary the button reads: the order's total net price, whether
      an order lock is present, and the fees, if any. */
  datatype OrderSummary = OrderSummary(totalNetPrice: Option<string>, hasOrderLock: bool, orderFees: Option<OrderFees>)

  /** `orderSummary?.order.totalNetPrice`, where an empty string counts as absent (falsy). */
  function Premium(summary: Option<OrderSummary>): (r: Option<string>)
    ensures r.Some? ==> r.value != ""
    ensures r.None? <==> summary.None? || summary.value.totalNetPrice.None? || summary.value.totalNetPrice == Some("")
  {
    if summary.None? then None
    else match summary.value.totalNetPrice
      case None => None
      case Some(p) => if p == "" then None else Some(p)
  }

  /** `orderSummary?.orderFees?.numeraireAmount` */
  function Fee(summary: Option<OrderSummary>): Option<real> {
    if summary.None? || summary.value.orderFees.None? then None
    else summary.value.orderFees.value.numeraireAmount
  }

  /** `isValidTotalPremium`: a premium is present and does not total "0.00". */
  function IsValidTotalPremium(summary: Option<OrderSummary>, totalPremium: (string, Option<real>) -> string): (r: bool)
    ensures Premium(summary).None? ==> !r
    ensures Premium(summary).Some? ==> (r <==> totalPremium(Premium(summary).value, Fee(summary)) != "0.00")
  {
    match Premium(summary)
    case None => false
    case Some(p) => totalPremium(p, Fee(summary)) != "0.00"
  }

  /** `isValidConfiguration`: the order lock and the fees are both present. */
  predicate IsValidConfiguration(summary: Option<OrderSummary>): (r: bool)
    ensures summary.None? ==> !r
  {
    summary.Some? && summary.value.hasOrderLock && summary.value.orderFees.Some?
  }

  function Abs(x: real): real { if x < 0.0 then -x else x }

  /** `isValid`: only with `onlyProfitableOrders` is anything checked; then an order with a
      premium is valid iff the fee's magnitude is below the total premium. A missing fee
      makes `Number(fee)` NaN, and every comparison with NaN is false. */
  function IsValid(onlyProfitableOrders: bool, summary: Option<OrderSummary>,
                   totalPremiumPlain: (string, Option<real>) -> real): (r: bool)
    ensures !onlyProfitableOrders ==> r
    ensures onlyProfitableOrders && Premium(summary).None? ==> r
    ensures onlyProfitableOrders && Premium(summary).Some? && Fee(summary).None? ==> !r
    ensures onlyProfitableOrders && Premium(summary).Some? && Fee(summary).Some? ==>
              (r <==> Abs(Fee(summary).value) < totalPremiumPlain(Premium(summary).value, Fee(summary)))
  {
    if !onlyProfitableOrders then true
    else match Premium(summary)
      case None => true
      case Some(p) =>
        match Fee(summary)
        case None => false
        case Some(f) => Abs(f) < totalPremiumPlain(p, Fee(summary))
  }

  /** `isDisabled` */
  function IsDisabled(isSubmitButtonDisabled: bool, isLocationRestricted: bool, onlyProfitableOrders: bool,
                      summary: Option<OrderSummary>, totalPremium: (string, Option<real>) -> string,
                      totalPremiumPlain: (string, Option<real>) -> real): (r: bool)
    ensures r <==> isSubmitButtonDisabled || isLocationRestricted ||
                   !IsValidTotalPremium(summary, totalPremium) ||
                   !IsValid(onlyProfitableOrders, summary, totalPremiumPlain)
    ensures isLocationRestricted ==> r
  {
    isSubmitButtonDisabled || isLocationRestricted ||
    !IsValidTotalPremium(summary, totalPremium) || !IsValid(onlyProfitableOrders, summary, totalPremiumPlain)
  }

  /** The condition under which funds must be deposited first. */
  predicate NeedsDeposit(hasEnoughFunds: bool, summary: Option<OrderSummary>): (r: bool)
    ensures hasEnoughFunds || summary.None? ==> !r
  {
    !hasEnoughFunds && IsValidConfiguration(summary)
  }

  const USDC: string := "USDC"

  /** What `handleSubmitToAuction` does: select USDC (which opens the deposit modal) or
      submit to the auction. */
  datatype ClickAction = SelectCurrency(name: string, address: string) | SubmitAuction

  function HandleSubmitToAuction(hasEnoughFunds: bool, summary: Option<OrderSummary>, usdcAddress: string): (a: ClickAction)
    ensures a.SelectCurrency? <==> NeedsDeposit(hasEnoughFunds, summary)
    ensures a.SelectCurrency? ==> a == SelectCurrency(USDC, usdcAddress)
  {
    if NeedsDeposit(hasEnoughFunds, summary) then SelectCurrency(USDC, usdcAddress) else SubmitAuction
  }

  const CHECK_CONFIGURATION: string := "Check Configuration"
  const INSUFFICIENT_BALANCE: string := "Insufficient Balance"

  /** `renderWarning`: the first matching case wins. */
  function RenderWarning(summary: Option<OrderSummary>, hasEnoughFunds: bool): (r: Option<string>)
    ensures summary.None? ==> r.None?
    ensures summary.Some? && !IsValidConfiguration(summary) ==> r == Some(CHECK_CONFIGURATION)
    ensures IsValidConfiguration(summary) && !hasEnoughFunds ==> r == Some(INSUFFICIENT_BALANCE)
    ensures IsValidConfiguration(summary) && hasEnoughFunds ==> r.None?
  {
    if summary.None? then None
    else if !IsValidConfiguration(summary) then Some(CHECK_CONFIGURATION)
    else if !hasEnoughFunds then Some(INSUFFICIENT_BALANCE)
    else None
  }

  datatype Button = DepositButton | SubmitToAuctionButton(disabled: bool)

  /** What the component renders: the Connect Wallet button alone, or the deposit modal
      (open on the deposit tab exactly when a currency is selected), one button and the
      warning. */
  datatype View =
    | ConnectWallet
    | Form(depositModalOpen: bool, button: Button, warning: Option<string>)

  function Render(connected: bool, selectedCurrency: Option<string>, hasEnoughFunds: bool,
                  isSubmitButtonDisabled: bool, isLocationRestricted: bool, onlyProfitableOrders: bool,
                  summary: Option<OrderSummary>, totalPremium: (string, Option<real>) -> string,
                  totalPremiumPlain: (string, Option<real>) -> real): (v: View)
    ensures !connected <==> v == ConnectWallet
    ensures v.Form? ==> v.depositModalOpen == selectedCurrency.Some? &&
                        v.warning == RenderWarning(summary, hasEnoughFunds)
    ensures v.Form? ==> (v.button == DepositButton <==> NeedsDeposit(hasEnoughFunds, summary))
    ensures v.Form? && v.button.SubmitToAuctionButton? ==>
              v.button.disabled == IsDisabled(isSubmitButtonDisabled, isLocationRestricted, onlyProfitableOrders,
                                              summary, totalPremium, totalPremiumPlain)
  {
    if !connected then ConnectWallet
    else
      var button := if NeedsDeposit(hasEnoughFunds, summary) then DepositButton
        else SubmitToAuctionButton(IsDisabled(isSubmitButtonDisabled, isLocationRestricted, onlyProfitableOrders,
                                              summary, totalPremium, totalPremiumPlain));
      Form(selectedCurrency.Some?, button, RenderWarning(summary, hasEnoughFunds))
  }

  /** The button shown and the click handler agree: the Deposit button selects USDC, the
      Submit button submits. The Deposit button carries no `disabled`, so it stays active
      even where the Submit button would be disabled. */
  lemma ButtonMatchesHandler(connected: bool, selectedCurrency: Option<string>, hasEnoughFunds: bool,
                             isSubmitButtonDisabled: bool, isLocationRestricted: bool, onlyProfitableOrders: bool,
                             summary: Option<OrderSummary>, totalPremium: (string, Option<real>) -> string,
                             totalPremiumPlain: (string, Option<real>) -> real, usdcAddress: string)
    requires connected
    ensures var v := Render(connected, selectedCurrency, hasEnoughFunds, isSubmitButtonDisabled, isLocationRestricted,
                            onlyProfitableOrders, summary, totalPremium, totalPremiumPlain);
            var a := HandleSubmitToAuction(hasEnoughFunds, summary, usdcAddress);
            (v.button == DepositButton <==> a == SelectCurrency(USDC, usdcAddress)) &&
            (v.button.SubmitToAuctionButton? <==> a == SubmitAuction)
  {
  }

  /** "Insufficient Balance" is shown exactly when the Deposit button replaces the Submit
      button, and "Check Configuration" only next to the Submit button. */
  lemma WarningMatchesButton(selectedCurrency: Option<string>, hasEnoughFunds: bool,
                             isSubmitButtonDisabled: bool, isLocationRestricted: bool, onlyProfitableOrders: bool,
                             summary: Option<OrderSummary>, totalPremium: (string, Option<real>) -> string,
                             totalPremiumPlain: (string, Option<real>) -> real)
    ensures var v := Render(true, selectedCurrency, hasEnoughFunds, isSubmitButtonDisabled, isLocationRestricted,
                            onlyProfitableOrders, summary, totalPremium, totalPremiumPlain);
            (v.warning == Some(INSUFFICIENT_BALANCE) <==> v.button == DepositButton) &&
            (v.warning == Some(CHECK_CONFIGURATION) ==> v.button.SubmitToAuctionButton?)
  {
    assert CHECK_CONFIGURATION[0] != INSUFFICIENT_BALANCE[0];
  }

  /** A fee larger than the premium, as in the example of a 1.80 fee against a 0.80 total
      premium, makes a profitable-only order invalid and so disables submission. */
  lemma UnprofitableOrderDisabled(summary: Option<OrderSummary>, totalPremium: (string, Option<real>) -> string,
                                  totalPremiumPlain: (string, Option<real>) -> real)
    requires Premium(summary).Some? && Fee(summary) == Some(1.80)
    requires totalPremiumPlain(Premium(summary).value, Fee(summary)) == 0.80
    ensures !IsValid(true, summary, totalPremiumPlain)
    ensures IsDisabled(false, false, true, summary, totalPremium, totalPremiumPlain)
  {
  }
}
