/** The best-quote selection of src/UI/components/OptionsTable/Table.tsx: for every
    strike, a `reduce` over the quotes keeps the one with the highest reference
    price (a later quote wins a tie), a loop pushes the winners in strike order,
    and the winners are mapped to display rows priced from a fetched price list. */
module OptionsTable {
  import opened Wrappers

  datatype OptionsData = OptionsData(
    contractId: int,
    payoff: string,
    expiry: int,
    strike: real,
    referencePrice: real,
    bestBid: Option<real>,     // null or undefined as None
    bestAsk: Option<real>,
    bidVolume: real,
    askVolume: real)

  /** One entry of the price list the pricing service returns. */
  datatype PriceEntry = PriceEntry(contractId: int, price: real)

  /** One contract of the price-list request. */
  datatype ContractRequest = ContractRequest(contractId: int, payoff: string, expiry: string, strike: real)

  datatype BidAskRow = BidAskRow(
    askVolume: real,
    bidVolume: real,
    bestBid: real,
    bestAsk: real,
    referencePrice: real)

  // ---------------------------------------------------------------------------
  // The per-strike reduce

  /** The index the `reduce` over `data[..n]` ends with for this strike. The step keeps
      the accumulator unless the element has the strike and a reference price that is
      greater than or equal to the accumulator's. */
  function SelectFold(data: seq<OptionsData>, strike: real, n: nat): (r: Option<nat>)
    requires n <= |data|
    ensures r.Some? ==> r.value < n && data[r.value].strike == strike
    ensures r.None? <==> forall j :: 0 <= j < n ==> data[j].strike != strike
    ensures r.Some? ==> forall j :: 0 <= j < n && data[j].strike == strike ==>
                          data[j].referencePrice <= data[r.value].referencePrice
    ensures r.Some? ==> forall j :: r.value < j < n && data[j].strike == strike ==>
                          data[j].referencePrice < data[r.value].referencePrice
  {
    if n == 0 then None
    else
      var acc := SelectFold(data, strike, n - 1);
      var el := data[n - 1];
      if el.strike == strike then
        if acc.None? || el.referencePrice > data[acc.value].referencePrice then Some(n - 1)
        else if el.referencePrice == data[acc.value].referencePrice then Some(n - 1)
        else acc
      else acc
  }

  /** `tempDataForStrike`: the quote the reduce selects for one strike, if any. */
  function BestForStrike(data: seq<OptionsData>, strike: real): Option<OptionsData> {
    match SelectFold(data, strike, |data|)
    case None => None
    case Some(i) => Some(data[i])
  }

  /** The selected quote has the strike and the maximum reference price among the quotes
      with that strike, and it is the LAST quote with that maximum; there is no selection
      exactly when no quote has the strike. */
  lemma BestForStrikeIsLastMaximum(data: seq<OptionsData>, strike: real)
    ensures BestForStrike(data, strike).None? <==> forall j :: 0 <= j < |data| ==> data[j].strike != strike
    ensures BestForStrike(data, strike).Some? ==>
      exists i :: 0 <= i < |data| && data[i] == BestForStrike(data, strike).value &&
        data[i].strike == strike &&
        (forall j :: 0 <= j < |data| && data[j].strike == strike ==> data[j].referencePrice <= data[i].referencePrice) &&
        (forall j :: i < j < |data| && data[j].strike == strike ==> data[j].referencePrice < data[i].referencePrice)
  {
    var r := SelectFold(data, strike, |data|);
    if r.Some? {
      assert data[r.value] == BestForStrike(data, strike).value;
    }
  }

  /** Two quotes tied on the maximum: the later one is selected. */
  lemma LaterTieWins(a: OptionsData, b: OptionsData)
    requires a.strike == b.strike && a.referencePrice == b.referencePrice
    ensures BestForStrike([a, b], a.strike) == Some(b)
  {
  }

  // ---------------------------------------------------------------------------
  // The outer loop

  /** `tempData` as a function of the strikes: one winner per strike that has a quote,
      in strike order. */
  function PerStrike(data: seq<OptionsData>, strikes: seq<real>): seq<OptionsData> {
    if strikes == [] then []
    else
      PerStrike(data, strikes[..|strikes| - 1]) +
      match BestForStrike(data, strikes[|strikes| - 1])
      case None => []
      case Some(e) => [e]
  }

  /** The `for` loop that pushes each strike's winner into `tempData`. */
  method SelectPerStrike(data: seq<OptionsData>, strikes: seq<real>) returns (tempData: seq<OptionsData>)
    ensures tempData == PerStrike(data, strikes)
  {
    tempData := [];
    var i := 0;
    while i < |strikes|
      invariant 0 <= i <= |strikes|
      invariant tempData == PerStrike(data, strikes[..i])
    {
      var tempDataForStrike := BestForStrike(data, strikes[i]);
      if tempDataForStrike.Some? {
        tempData := tempData + [tempDataForStrike.value];
      }
      assert strikes[..i + 1][..i] == strikes[..i];
      i := i + 1;
    }
    assert strikes[..i] == strikes;
  }

  lemma {:induction false} PerStrikeLength(data: seq<OptionsData>, strikes: seq<real>)
    ensures |PerStrike(data, strikes)| <= |strikes|
  {
    if strikes != [] {
      PerStrikeLength(data, strikes[..|strikes| - 1]);
    }
  }

  /** Strikes are processed independently and in order: the result for `a + b` is the
      result for `a` followed by the result for `b`. So a repeated strike yields a
      repeated entry, and strikes without a quote contribute nothing. */
  lemma {:induction false} PerStrikeAppend(data: seq<OptionsData>, a: seq<real>, b: seq<real>)
    ensures PerStrike(data, a + b) == PerStrike(data, a) + PerStrike(data, b)
  {
    if b != [] {
      assert (a + b)[..|a + b| - 1] == a + b[..|b| - 1];
      assert (a + b)[|a + b| - 1] == b[|b| - 1];
      PerStrikeAppend(data, a, b[..|b| - 1]);
    } else {
      assert a + b == a;
    }
  }

  lemma PerStrikeSingle(data: seq<OptionsData>, strike: real)
    ensures PerStrike(data, [strike]) ==
      match BestForStrike(data, strike) case None => [] case Some(e) => [e]
  {
    assert [strike][..0] == [];
  }

  /** Every entry of `tempData` is a quote of `data` that has one of the strikes and the
      highest reference price for that strike. */
  lemma {:induction false} PerStrikeEntriesAreBest(data: seq<OptionsData>, strikes: seq<real>, k: nat)
    requires k < |PerStrike(data, strikes)|
    ensures var e := PerStrike(data, strikes)[k];
      e in data && e.strike in strikes &&
      forall j :: 0 <= j < |data| && data[j].strike == e.strike ==> data[j].referencePrice <= e.referencePrice
  {
    var prefix := strikes[..|strikes| - 1];
    var last := strikes[|strikes| - 1];
    PerStrikeLength(data, prefix);
    if k < |PerStrike(data, prefix)| {
      PerStrikeEntriesAreBest(data, prefix, k);
      assert PerStrike(data, strikes)[k] == PerStrike(data, prefix)[k];
      assert forall x :: x in prefix ==> x in strikes;
    } else {
      var r := SelectFold(data, last, |data|);
      assert r.Some?;
      assert PerStrike(data, strikes)[k] == data[r.value];
    }
  }

  // ---------------------------------------------------------------------------
  // The price-list request and the display rows

  /** `contracts`: the request sent for the selected quotes, one per quote, in order. */
  function PriceListRequest(tempData: seq<OptionsData>, formatDate: int -> string): (r: seq<ContractRequest>)
    ensures |r| == |tempData|
    ensures forall k :: 0 <= k < |r| ==>
      r[k].contractId == tempData[k].contractId && r[k].strike == tempData[k].strike &&
      r[k].payoff == tempData[k].payoff && r[k].expiry == formatDate(tempData[k].expiry)
  {
    seq(|tempData|, k requires 0 <= k < |tempData| =>
      ContractRequest(tempData[k].contractId, tempData[k].payoff, formatDate(tempData[k].expiry), tempData[k].strike))
  }

  /** `data.find(...)`: the index of the first entry with the contract id. */
  function FindContract(priceList: seq<PriceEntry>, contractId: int): (r: Option<nat>)
    ensures r.Some? ==> r.value < |priceList| && priceList[r.value].contractId == contractId &&
                        forall j :: 0 <= j < r.value ==> priceList[j].contractId != contractId
    ensures r.None? <==> forall j :: 0 <= j < |priceList| ==> priceList[j].contractId != contractId
  {
    if priceList == [] then None
    else if priceList[0].contractId == contractId then Some(0)
    else match FindContract(priceList[1..], contractId)
      case None => None
      case Some(i) => Some(i + 1)
  }

  /** `newContract?.price || 0` */
  function ReferencePriceOf(priceList: seq<PriceEntry>, contractId: int): real {
    match FindContract(priceList, contractId)
    case None => 0.0
    case Some(i) => priceList[i].price
  }

  /** `el.bestBid || 0`: null, undefined and 0 all become 0. */
  function OrZero(x: Option<real>): (r: real)
    ensures x.None? ==> r == 0.0
    ensures x.Some? ==> r == x.value
  {
    x.GetOr(0.0)
  }

  function ShowingRow(el: OptionsData, priceList: seq<PriceEntry>): BidAskRow {
    BidAskRow(el.askVolume, el.bidVolume, OrZero(el.bestBid), OrZero(el.bestAsk),
              ReferencePriceOf(priceList, el.contractId))
  }

  /** `showingList`: one row per selected quote, in the same order. */
  function ShowingList(tempData: seq<OptionsData>, priceList: seq<PriceEntry>): (r: seq<BidAskRow>)
    ensures |r| == |tempData|
    ensures forall k :: 0 <= k < |r| ==> r[k] == ShowingRow(tempData[k], priceList)
  {
    seq(|tempData|, k requires 0 <= k < |tempData| => ShowingRow(tempData[k], priceList))
  }

  /** The displayed reference price is the price of the first price-list entry with the
      row's contract id, or 0 when there is none. */
  lemma ShowingRowReferencePrice(el: OptionsData, priceList: seq<PriceEntry>)
    ensures (forall j :: 0 <= j < |priceList| ==> priceList[j].contractId != el.contractId) ==>
      ShowingRow(el, priceList).referencePrice == 0.0
    ensures forall i :: (0 <= i < |priceList| && priceList[i].contractId == el.contractId &&
                         (forall j :: 0 <= j < i ==> priceList[j].contractId != el.contractId)) ==>
                        ShowingRow(el, priceList).referencePrice == priceList[i].price
  {
    var r := FindContract(priceList, el.contractId);
    forall i | 0 <= i < |priceList| && priceList[i].contractId == el.contractId &&
      (forall j :: 0 <= j < i ==> priceList[j].contractId != el.contractId)
      ensures r == Some(i)
    {
      assert r.Some?;
      assert !(r.value < i) && !(i < r.value);
    }
  }

  // ---------------------------------------------------------------------------
  // The component state

  class Table {
    var showingData: seq<BidAskRow>

    constructor ()
      ensures showingData == []
    {
      showingData := [];
    }

    /** The effect run when `data` or `strikes` change; `priceList` is what the price-list
        request resolves to, None when it is rejected. With no quotes nothing is computed;
        a rejected request has no handler, so in both cases the rows stay as they are. */
    method OnQuotesChanged(data: seq<OptionsData>, strikes: seq<real>, priceList: Option<seq<PriceEntry>>)
      modifies this
      ensures |data| == 0 || priceList.None? ==> showingData == old(showingData)
      ensures |data| > 0 && priceList.Some? ==> showingData == ShowingList(PerStrike(data, strikes), priceList.value)
    {
      if |data| == 0 {
        return;
      }
      var tempData := SelectPerStrike(data, strikes);
      match priceList {
        case None =>
        case Some(list) =>
          showingData := ShowingList(tempData, list);
      }
    }
  }
}
