/** The bid/ask pricing rule of src/services/pricing/helpers.ts: a mid-price is
    moved by half a spread (or, for forwards, by an asymmetric 0.4/0.6 split of
    it) and then protected by a type-specific minimum price. Prices are `real`;
    floating-point rounding is not modelled. */
module Pricing {
  import opened Wrappers

  /** The three spread constants fetched from the quoting service; each may be absent. */
  datatype QuotingParams = QuotingParams(
    vanillaSpread: Option<real>,   // VANILLA_SPREAD, in hundredths of a percent of spot
    digitalSpread: Option<real>,   // DIGITAL_SPREAD, absolute
    forwardSpread: Option<real>)   // FORWARD_SPREAD, absolute

  /** The caller supplies exactly one of a forced spread or the quoting params. */
  datatype SpreadSource = Forced(spread: real) | Quoting(params: QuotingParams)

  datatype PricingError = UnableToDetermineTotalSpread

  datatype BidAskRequest = BidAskRequest(
    midPrice: real,
    optionType: string,
    side: string,
    currentSpotPrice: real,
    source: SpreadSource)

  const SELL: string := "SELL"
  const FORWARD: string := "Forward"

  /** The module-level constant; every branch shadows it with a local floor. */
  const MODULE_MINIMUM_PRICE: real := 0.01
  const BINARY_MINIMUM_PRICE: real := 0.0001
  const DEFAULT_MINIMUM_PRICE: real := 0.001

  predicate IsBinary(optionType: string) {
    optionType == "BinaryPut" || optionType == "BinaryCall"
  }

  /** `quotingParams?.X`: absent whenever the spread is forced. */
  function ParamsOf(source: SpreadSource): Option<QuotingParams> {
    match source
    case Forced(_) => None
    case Quoting(p) => Some(p)
  }

  function DigitalSpreadOf(source: SpreadSource): Option<real> {
    match ParamsOf(source)
    case None => None
    case Some(p) => p.digitalSpread
  }

  /** `quotingParams?.FORWARD_SPREAD || 0` */
  function ForwardSpreadOf(source: SpreadSource): real {
    match ParamsOf(source)
    case None => 0.0
    case Some(p) => p.forwardSpread.GetOr(0.0)
  }

  /** `quotingParams?.VANILLA_SPREAD ?? 0` */
  function VanillaSpreadOf(source: SpreadSource): real {
    match ParamsOf(source)
    case None => 0.0
    case Some(p) => p.vanillaSpread.GetOr(0.0)
  }

  /** `(VANILLA_SPREAD ?? 0) / 100 / 100 * currentSpotPrice` */
  function VanillaTotalSpread(source: SpreadSource, currentSpotPrice: real): real {
    VanillaSpreadOf(source) / 100.0 / 100.0 * currentSpotPrice
  }

  function Max(a: real, b: real): real { if a >= b then a else b }

  /** The price computed by helpers.ts, or the error it throws. The dispatch on the
      option type picks the floor and the type's spread; forwards return early. */
  function CalculateBidAsk(req: BidAskRequest): (r: Result<real, PricingError>)
    ensures r.Success? ==> r.value > 0.0
    ensures r.Failure? <==>
      IsBinary(req.optionType) && req.source.Quoting? && req.source.params.digitalSpread.None?
  {
    if IsBinary(req.optionType) then
      ApplySpread(req, BINARY_MINIMUM_PRICE, DigitalSpreadOf(req.source))
    else if req.optionType == FORWARD then
      var totalSpread := ForwardSpreadOf(req.source);
      var bid := req.midPrice - 0.4 * totalSpread;
      var ask := req.midPrice + 0.6 * totalSpread;
      Success(if req.side == SELL then Max(bid, DEFAULT_MINIMUM_PRICE) else Max(ask, DEFAULT_MINIMUM_PRICE))
    else
      ApplySpread(req, DEFAULT_MINIMUM_PRICE, Some(VanillaTotalSpread(req.source, req.currentSpotPrice)))
  }

  /** The part after the dispatch: the forced-spread override, the guard against a
      missing spread, and the half-spread move with its floor. */
  function ApplySpread(req: BidAskRequest, minimumPrice: real, typeSpread: Option<real>): (r: Result<real, PricingError>)
    requires minimumPrice > 0.0
    ensures r.Failure? <==> req.source.Quoting? && typeSpread.None?
    ensures r.Success? ==> r.value > 0.0
  {
    var totalSpread := if req.source.Forced? then Some(req.source.spread) else typeSpread;
    if totalSpread.None? then
      Failure(UnableToDetermineTotalSpread)
    else
      var halfSpread := totalSpread.value / 2.0;
      var price := if req.side == SELL then req.midPrice - halfSpread else req.midPrice + halfSpread;
      Success(if price > 0.0 then price else minimumPrice)
  }

  // ---------------------------------------------------------------------------
  // Reference definitions the properties are stated against.

  /** The floor a non-forward type falls back to. */
  function MinimumPrice(optionType: string): real {
    if IsBinary(optionType) then BINARY_MINIMUM_PRICE else DEFAULT_MINIMUM_PRICE
  }

  /** Mid-price moved by half the spread towards the side's direction. */
  function Candidate(midPrice: real, side: string, spread: real): real {
    if side == SELL then midPrice - spread / 2.0 else midPrice + spread / 2.0
  }

  /** A positive candidate is kept; any other becomes the floor. */
  function Floored(price: real, floor: real): real {
    if price > 0.0 then price else floor
  }

  function WithSource(req: BidAskRequest, source: SpreadSource): BidAskRequest {
    BidAskRequest(req.midPrice, req.optionType, req.side, req.currentSpotPrice, source)
  }

  function WithSide(req: BidAskRequest, side: string): BidAskRequest {
    BidAskRequest(req.midPrice, req.optionType, side, req.currentSpotPrice, req.source)
  }

  // ---------------------------------------------------------------------------
  // Forward

  /** Forward: bid = mid - 0.4 s, ask = mid + 0.6 s, each at least 0.001, where s is
      FORWARD_SPREAD or 0. */
  lemma ForwardPricing(req: BidAskRequest)
    requires req.optionType == FORWARD
    ensures var s := ForwardSpreadOf(req.source);
      CalculateBidAsk(req) ==
        Success(if req.side == SELL then Max(req.midPrice - 0.4 * s, 0.001)
                else Max(req.midPrice + 0.6 * s, 0.001))
    ensures CalculateBidAsk(req).value >= DEFAULT_MINIMUM_PRICE
  {
  }

  /** A forced spread has no effect on a forward: it prices as if FORWARD_SPREAD were 0. */
  lemma ForwardIgnoresForcedSpread(req: BidAskRequest, f: real)
    requires req.optionType == FORWARD
    ensures CalculateBidAsk(WithSource(req, Forced(f))) ==
            CalculateBidAsk(WithSource(req, Quoting(QuotingParams(None, None, None))))
    ensures CalculateBidAsk(WithSource(req, Forced(f))) ==
            CalculateBidAsk(WithSource(req, Quoting(QuotingParams(None, None, Some(0.0)))))
  {
  }

  /** With a non-negative spread the forward ask is never below the forward bid. */
  lemma ForwardAskAtLeastBid(req: BidAskRequest)
    requires req.optionType == FORWARD
    requires ForwardSpreadOf(req.source) >= 0.0
    ensures CalculateBidAsk(WithSide(req, "BUY")).value >= CalculateBidAsk(WithSide(req, SELL)).value
  {
  }

  /** Unfloored, the forward ask and bid are exactly one spread apart, split 0.6/0.4
      around the mid-price (so never the symmetric mid-price +/- s/2 unless s = 0). */
  lemma ForwardWidthIsSpread(req: BidAskRequest)
    requires req.optionType == FORWARD
    requires req.midPrice - 0.4 * ForwardSpreadOf(req.source) >= 0.001
    requires req.midPrice + 0.6 * ForwardSpreadOf(req.source) >= 0.001
    ensures var s := ForwardSpreadOf(req.source);
      var ask := CalculateBidAsk(WithSide(req, "BUY")).value;
      var bid := CalculateBidAsk(WithSide(req, SELL)).value;
      ask - bid == s && ask - req.midPrice == 0.6 * s && req.midPrice - bid == 0.4 * s
  {
  }

  // ---------------------------------------------------------------------------
  // Non-forward types

  /** Vanilla, and any type that is neither binary nor forward, with quoting params:
      spread = (VANILLA_SPREAD ?? 0) / 10000 * spot, floor 0.001. */
  lemma VanillaPricing(req: BidAskRequest)
    requires !IsBinary(req.optionType) && req.optionType != FORWARD && req.source.Quoting?
    ensures VanillaTotalSpread(req.source, req.currentSpotPrice) ==
            req.source.params.vanillaSpread.GetOr(0.0) / 10000.0 * req.currentSpotPrice
    ensures CalculateBidAsk(req) ==
            Success(Floored(Candidate(req.midPrice, req.side, VanillaTotalSpread(req.source, req.currentSpotPrice)), 0.001))
  {
    var v := req.source.params.vanillaSpread.GetOr(0.0);
    assert VanillaSpreadOf(req.source) == v;
    assert v / 100.0 / 100.0 == v / 10000.0;
  }

  /** Binary types with a DIGITAL_SPREAD: spread = DIGITAL_SPREAD, floor 0.0001. */
  lemma BinaryPricing(req: BidAskRequest)
    requires IsBinary(req.optionType) && req.source.Quoting? && req.source.params.digitalSpread.Some?
    ensures CalculateBidAsk(req) ==
      Success(Floored(Candidate(req.midPrice, req.side, req.source.params.digitalSpread.value), 0.0001))
  {
  }

  /** For every non-forward type a forced spread replaces the type-derived spread. */
  lemma ForcedSpreadOverrides(req: BidAskRequest, f: real)
    requires req.optionType != FORWARD
    ensures CalculateBidAsk(WithSource(req, Forced(f))) ==
      Success(Floored(Candidate(req.midPrice, req.side, f), MinimumPrice(req.optionType)))
  {
  }

  /** For non-forward types the candidate is returned exactly when it is strictly
      positive, and otherwise the type's floor is returned. */
  lemma NonForwardFloor(req: BidAskRequest, spread: real)
    requires req.optionType != FORWARD
    requires CalculateBidAsk(req).Success?
    requires spread == if req.source.Forced? then req.source.spread
                       else if IsBinary(req.optionType) then req.source.params.digitalSpread.value
                       else VanillaTotalSpread(req.source, req.currentSpotPrice)
    ensures var c := Candidate(req.midPrice, req.side, spread);
      (c > 0.0 ==> CalculateBidAsk(req).value == c) &&
      (c <= 0.0 ==> CalculateBidAsk(req).value == MinimumPrice(req.optionType))
  {
  }

  /** The only failure: a binary type priced from quoting params without DIGITAL_SPREAD. */
  lemma OnlyBinaryFails(req: BidAskRequest)
    ensures req.optionType == FORWARD ==> CalculateBidAsk(req).Success?
    ensures !IsBinary(req.optionType) ==> CalculateBidAsk(req).Success?
    ensures req.source.Forced? ==> CalculateBidAsk(req).Success?
  {
  }

  /** Every side other than "SELL" is priced as the buy (ask) side. */
  lemma NonSellIsBuy(req: BidAskRequest)
    requires req.side != SELL
    ensures CalculateBidAsk(req) == CalculateBidAsk(WithSide(req, "BUY"))
  {
    var buy := WithSide(req, "BUY");
    assert "BUY"[0] != SELL[0];
  }

  /** The floor never is the module-level 0.01: for every non-forward type, with a
      forced spread or the type's spread from the quoting params, a candidate that is not
      positive gives 0.0001 or 0.001. */
  lemma ModuleMinimumShadowed(req: BidAskRequest, spread: real)
    requires req.optionType != FORWARD
    requires CalculateBidAsk(req).Success?
    requires spread == if req.source.Forced? then req.source.spread
                       else if IsBinary(req.optionType) then req.source.params.digitalSpread.value
                       else VanillaTotalSpread(req.source, req.currentSpotPrice)
    requires Candidate(req.midPrice, req.side, spread) <= 0.0
    ensures CalculateBidAsk(req).value != MODULE_MINIMUM_PRICE
    ensures CalculateBidAsk(req).value == BINARY_MINIMUM_PRICE || CalculateBidAsk(req).value == DEFAULT_MINIMUM_PRICE
  {
  }

  // ---------------------------------------------------------------------------
  // Worked examples

  const DEFAULT_PARAMS: QuotingParams := QuotingParams(Some(5.25), Some(0.05), Some(1.05))

  /** 5.25 at spot 2000 is a spread of 1.05: SELL 9.475, BUY 10.525 around 10. */
  lemma VanillaExample()
    ensures CalculateBidAsk(BidAskRequest(10.0, "Vanilla", SELL, 2000.0, Quoting(DEFAULT_PARAMS))) == Success(9.475)
    ensures CalculateBidAsk(BidAskRequest(10.0, "Vanilla", "BUY", 2000.0, Quoting(DEFAULT_PARAMS))) == Success(10.525)
  {
  }

  /** FORWARD_SPREAD 1.05 around 1: bid 0.58, ask 1.63. */
  lemma ForwardExample()
    ensures CalculateBidAsk(BidAskRequest(1.0, FORWARD, SELL, 2000.0, Quoting(DEFAULT_PARAMS))) == Success(0.58)
    ensures CalculateBidAsk(BidAskRequest(1.0, FORWARD, "BUY", 2000.0, Quoting(DEFAULT_PARAMS))) == Success(1.63)
  {
  }

  /** Negative candidates fall to the floor: 0.0001 (binary) and 0.001 (vanilla). */
  lemma FloorExamples()
    ensures CalculateBidAsk(BidAskRequest(0.00005, "BinaryCall", SELL, 2000.0, Quoting(DEFAULT_PARAMS))) == Success(0.0001)
    ensures CalculateBidAsk(BidAskRequest(0.005, "Vanilla", SELL, 2000.0, Forced(0.02))) == Success(0.001)
  {
  }

  /** A positive candidate below the floor is returned as it is. */
  lemma BelowFloorExample()
    ensures CalculateBidAsk(BidAskRequest(0.00005, "BinaryPut", "BUY", 2000.0, Forced(0.0))) == Success(0.00005)
    ensures CalculateBidAsk(BidAskRequest(0.0011, "Vanilla", SELL, 2000.0, Forced(0.001))) == Success(0.0006)
  {
  }

  /** A binary type without DIGITAL_SPREAD and without a forced spread throws. */
  lemma MissingDigitalSpreadExample()
    ensures CalculateBidAsk(BidAskRequest(1.0, "BinaryCall", "BUY", 2000.0, Quoting(QuotingParams(Some(5.25), None, Some(1.05)))))
            == Failure(UnableToDetermineTotalSpread)
  {
  }
}
