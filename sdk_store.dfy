/** The protocol slice of the application store, src/UI/lib/zustand/slices/ithacaSDKSlice.ts:
    the socket-message handler, the cross-chain transaction list and its copy in local
    storage, the maintenance and location flags, disconnecting, and the protocol
    initialisation with its bounded retries. Every SDK, pricing-service and KYC call is
    replaced by a parameter giving its outcome. */
module SdkStore {
  import opened Wrappers
  import Pricing

  /** The fields of a socket order payload that the application reads. Absent or empty
      strings of the payload are None. */
  datatype SocketOrder = SocketOrder(
    totalOpenOrdersCount: Option<int>,
    orderStatus: string,
    ordRejReason: Option<string>,
    netPrice: Option<string>)

  /** A cross-chain deposit as recorded by the deposit flow: its route, the status last
      fetched for it and when it was recorded. */
  datatype CrossChainTransaction = CrossChainTransaction(route: string, status: string, timestamp: int)

  /** Which SDK instance the store holds: none yet, one without a wallet, one with a wallet. */
  datatype SdkInstance = NoSdk | ReadOnlySdk | WalletSdk

  /** The spot contract, reduced to what identifies it. */
  datatype Contract = Contract(contractId: int, referencePrice: real)

  /** What the five parallel fetches of `initIthacaProtocol`, after `transformInitData`,
      provide: the fetched quoting parameters (None when the response has no data), the
      spot contract it found (if any), the expiries and the spot price. */
  datatype InitData = InitData(
    quotingParams: Option<Pricing.QuotingParams>,
    spotContract: Option<Contract>,
    expiryList: seq<int>,
    currentSpotPrice: real)

  /** How one `initIthacaProtocol` call goes: building the read-only SDK fails (its
      configuration fetch rejects, outside the `try`), one of the fetches fails, or all of
      them succeed. */
  datatype InitOutcome = ConfigFailed | FetchFailed | Fetched(data: InitData)

  /** The delay before a scheduled re-initialisation, in milliseconds. */
  const INIT_RETRY_DELAY: int := 20_000
  const DEFAULT_MAX_RETRIES: nat := 3
  const SPOT_CONTRACT_DEFAULT: Contract := Contract(0, 0.0)

  /** The status that makes the location check pass. */
  const STATUS_OK: int := 200

  /** Whether the location check restricts the user: never when the feature flag is off;
      otherwise the outcome of the check (its status, or None when it throws) decides,
      and a thrown check leaves the previous value. */
  function LocationRestriction(featureEnabled: bool, detectStatus: Option<int>, previous: bool): (r: bool)
    ensures !featureEnabled ==> !r
    ensures featureEnabled && detectStatus.Some? ==> (r <==> detectStatus.value != STATUS_OK)
    ensures featureEnabled && detectStatus.None? ==> r == previous
  {
    if !featureEnabled then false
    else match detectStatus
      case None => previous
      case Some(status) => status != STATUS_OK
  }

  /** The retry an initialisation schedules: the next count, only after a failure and
      only while the count is below the maximum. */
  function NextRetry(retryCount: nat, maxRetries: nat, failed: bool): (r: Option<nat>)
    ensures r.Some? <==> failed && retryCount < maxRetries
    ensures r.Some? ==> r.value == retryCount + 1 && r.value <= maxRetries
  {
    if failed && retryCount < maxRetries then Some(retryCount + 1) else None
  }

  /** The number of `initIthacaProtocol` calls made from a call with `retryCount`, when
      the call with count `k` fails exactly when `fails(k)`. */
  function InitAttempts(retryCount: nat, maxRetries: nat, fails: nat -> bool): nat
    decreases if retryCount < maxRetries then maxRetries - retryCount else 0
  {
    match NextRetry(retryCount, maxRetries, fails(retryCount))
    case None => 1
    case Some(next) => 1 + InitAttempts(next, maxRetries, fails)
  }

  /** The initialisation runs at most `maxRetries - retryCount` more times after the
      first call: from the default count 0, at most `maxRetries` retries. */
  lemma {:induction false} InitAttemptsBounded(retryCount: nat, maxRetries: nat, fails: nat -> bool)
    requires retryCount <= maxRetries
    ensures 1 <= InitAttempts(retryCount, maxRetries, fails) <= maxRetries - retryCount + 1
    decreases maxRetries - retryCount
  {
    if fails(retryCount) && retryCount < maxRetries {
      InitAttemptsBounded(retryCount + 1, maxRetries, fails);
    }
  }

  /** When every call fails, the bound is reached: exactly `maxRetries` retries from 0. */
  lemma {:induction false} InitAttemptsAllFail(retryCount: nat, maxRetries: nat, fails: nat -> bool)
    requires retryCount <= maxRetries
    requires forall k: nat :: fails(k)
    ensures InitAttempts(retryCount, maxRetries, fails) == maxRetries - retryCount + 1
    decreases maxRetries - retryCount
  {
    if retryCount < maxRetries {
      InitAttemptsAllFail(retryCount + 1, maxRetries, fails);
    }
  }

  /** A call that succeeds schedules nothing, whatever the count. */
  lemma SuccessStopsRetrying(retryCount: nat, maxRetries: nat, fails: nat -> bool)
    requires !fails(retryCount)
    ensures InitAttempts(retryCount, maxRetries, fails) == 1
  {
  }

  /** `expiryList[0]`: undefined for an empty list. */
  function FirstExpiry(expiryList: seq<int>): (r: Option<int>)
    ensures r.None? <==> expiryList == []
    ensures r.Some? ==> r.value == expiryList[0]
  {
    if expiryList == [] then None else Some(expiryList[0])
  }

  class IthacaStore {
    var quotingParams: Pricing.QuotingParams
    var isLoading: bool
    var isLocationRestricted: bool
    var isMaintenanceEnabled: bool
    var isAuthenticated: bool
    var ithacaSDK: SdkInstance
    var spotContract: Contract
    var expiryList: seq<int>
    var currentExpiryDate: Option<int>
    var currentSpotPrice: real
    var openOrdersCount: Option<int>
    var newToast: Option<SocketOrder>
    var toastNotifications: seq<SocketOrder>
    var crossChainTransactions: seq<CrossChainTransaction>
    /** The local-storage entries the slice writes: "ithaca.session" (written by the
        login flow, which is not part of this model) and the JSON copy of the
        transaction list under "ithaca.cross-chain-transactions". */
    var storedSession: Option<string>
    var storedCrossChainTransactions: Option<seq<CrossChainTransaction>>
    /** How many "storage" events have been dispatched on the window. */
    var storageEvents: nat
    /** The retry counts of the re-initialisations scheduled so far. */
    var scheduledRetries: seq<nat>

    /** The stored copy of the transaction list, when there is one, is the list itself. */
    ghost predicate Valid()
      reads this
    {
      storedCrossChainTransactions.Some? ==> storedCrossChainTransactions.value == crossChainTransactions
    }

    /** The slice's initial state. */
    constructor ()
      ensures Valid()
      ensures quotingParams == Pricing.DEFAULT_PARAMS
      ensures isLoading && !isLocationRestricted && !isMaintenanceEnabled && !isAuthenticated
      ensures ithacaSDK == NoSdk && spotContract == SPOT_CONTRACT_DEFAULT
      ensures expiryList == [] && currentExpiryDate == Some(0) && currentSpotPrice == 0.0
      ensures openOrdersCount == Some(0) && newToast.None? && toastNotifications == []
      ensures crossChainTransactions == [] && storedCrossChainTransactions.None? && storedSession.None?
      ensures storageEvents == 0 && scheduledRetries == []
    {
      quotingParams := Pricing.DEFAULT_PARAMS;
      isLoading := true;
      isLocationRestricted := false;
      isMaintenanceEnabled := false;
      isAuthenticated := false;
      ithacaSDK := NoSdk;
      spotContract := SPOT_CONTRACT_DEFAULT;
      expiryList := [];
      currentExpiryDate := Some(0);
      currentSpotPrice := 0.0;
      openOrdersCount := Some(0);
      newToast := None;
      toastNotifications := [];
      crossChainTransactions := [];
      storedSession := None;
      storedCrossChainTransactions := None;
      storageEvents := 0;
      scheduledRetries := [];
    }

    /** The socket `onMessage` callback. */
    method OnMessage(payload: SocketOrder)
      requires Valid()
      modifies this`openOrdersCount, this`newToast, this`toastNotifications
      ensures Valid()
      ensures openOrdersCount == payload.totalOpenOrdersCount
      ensures newToast == Some(payload)
      ensures toastNotifications == old(toastNotifications) + [payload]
      ensures crossChainTransactions == old(crossChainTransactions)
      ensures storedCrossChainTransactions == old(storedCrossChainTransactions)
    {
      openOrdersCount := payload.totalOpenOrdersCount;
      newToast := Some(payload);
      toastNotifications := toastNotifications + [payload];
    }

    /** Appends to a copy of the list, persists the copy, announces the change and stores it. */
    method AddCrossChainTransaction(transaction: CrossChainTransaction)
      requires Valid()
      modifies this`crossChainTransactions, this`storedCrossChainTransactions, this`storageEvents
      ensures Valid()
      ensures crossChainTransactions == old(crossChainTransactions) + [transaction]
      ensures storedCrossChainTransactions == Some(crossChainTransactions)
      ensures storageEvents == old(storageEvents) + 1
      ensures toastNotifications == old(toastNotifications) && storedSession == old(storedSession)
    {
      var cloned := crossChainTransactions;
      cloned := cloned + [transaction];
      storedCrossChainTransactions := Some(cloned);
      storageEvents := storageEvents + 1;
      crossChainTransactions := cloned;
    }

    /** Replaces the list wholesale, persisting it first. */
    method UpdateCrossChainTxnStatus(transactions: seq<CrossChainTransaction>)
      requires Valid()
      modifies this`crossChainTransactions, this`storedCrossChainTransactions, this`storageEvents
      ensures Valid()
      ensures crossChainTransactions == transactions
      ensures storedCrossChainTransactions == Some(transactions)
      ensures storageEvents == old(storageEvents) + 1
      ensures toastNotifications == old(toastNotifications) && storedSession == old(storedSession)
    {
      storedCrossChainTransactions := Some(transactions);
      storageEvents := storageEvents + 1;
      crossChainTransactions := transactions;
    }

    /** `systemInfoOk` is whether the system-info request succeeds. */
    method CheckSystemInfo(systemInfoOk: bool)
      requires Valid()
      modifies this`isMaintenanceEnabled
      ensures Valid()
      ensures isMaintenanceEnabled == !systemInfoOk
    {
      if systemInfoOk {
        isMaintenanceEnabled := false;
      } else {
        isMaintenanceEnabled := true;
      }
    }

    /** `featureEnabled` is the location-detection feature flag; `detectStatus` the status
        of the KYC check, or None when it (or reading the session) throws. */
    method CheckLocationRestriction(featureEnabled: bool, detectStatus: Option<int>)
      requires Valid()
      modifies this`isLocationRestricted
      ensures Valid()
      ensures isLocationRestricted == LocationRestriction(featureEnabled, detectStatus, old(isLocationRestricted))
      ensures isMaintenanceEnabled == old(isMaintenanceEnabled) && isAuthenticated == old(isAuthenticated)
      ensures crossChainTransactions == old(crossChainTransactions)
    {
      if !featureEnabled {
        isLocationRestricted := false;
      } else if detectStatus.Some? {
        isLocationRestricted := detectStatus.value != STATUS_OK;
      }
    }

    /** `logoutOk`: the awaited logout resolves; `configOk`: the configuration fetch for
        the read-only SDK resolves. A rejection stops the sequence where it happens. */
    method Disconnect(logoutOk: bool, configOk: bool)
      requires Valid()
      modifies this`storedSession, this`storedCrossChainTransactions, this`ithacaSDK, this`isAuthenticated
      ensures Valid()
      ensures !logoutOk ==> storedSession == old(storedSession) &&
                            storedCrossChainTransactions == old(storedCrossChainTransactions) &&
                            isAuthenticated == old(isAuthenticated) && ithacaSDK == old(ithacaSDK)
      ensures logoutOk ==> storedSession.None? && storedCrossChainTransactions.None?
      ensures logoutOk && configOk ==> !isAuthenticated && ithacaSDK == ReadOnlySdk
      ensures logoutOk && !configOk ==> isAuthenticated == old(isAuthenticated) && ithacaSDK == old(ithacaSDK)
      ensures crossChainTransactions == old(crossChainTransactions)
    {
      if !logoutOk {
        return;
      }
      storedSession := None;
      storedCrossChainTransactions := None;
      if !configOk {
        return;
      }
      ithacaSDK := ReadOnlySdk;
      isAuthenticated := false;
    }

    /** The fields only a successful initialisation writes keep their values. */
    twostate predicate FetchedKept()
      reads this
    {
      quotingParams == old(quotingParams) && isLoading == old(isLoading) && spotContract == old(spotContract) &&
      expiryList == old(expiryList) && currentExpiryDate == old(currentExpiryDate) &&
      currentSpotPrice == old(currentSpotPrice)
    }

    /** One call of `initIthacaProtocol(retryCount, maxRetries)`. On success the location
        check runs with `featureEnabled`/`detectStatus` before the fetched data is stored. */
    method InitIthacaProtocol(retryCount: nat, maxRetries: nat, outcome: InitOutcome,
                              featureEnabled: bool, detectStatus: Option<int>)
      requires Valid()
      modifies this`ithacaSDK, this`isMaintenanceEnabled, this`scheduledRetries, this`isLocationRestricted,
               this`quotingParams, this`spotContract, this`isLoading, this`expiryList,
               this`currentExpiryDate, this`currentSpotPrice
      ensures Valid()
      ensures outcome.ConfigFailed? ==>
        (ithacaSDK == old(ithacaSDK) && isMaintenanceEnabled == old(isMaintenanceEnabled) &&
         scheduledRetries == old(scheduledRetries))
      ensures !outcome.Fetched? ==> FetchedKept()
      ensures outcome.ConfigFailed? ==> isLocationRestricted == old(isLocationRestricted)
      ensures !outcome.ConfigFailed? ==> ithacaSDK == ReadOnlySdk
      ensures outcome.FetchFailed? ==>
        (isMaintenanceEnabled && quotingParams == old(quotingParams) && isLoading == old(isLoading) &&
         isLocationRestricted == old(isLocationRestricted))
      ensures outcome.FetchFailed? ==>
        (scheduledRetries == old(scheduledRetries) +
           match NextRetry(retryCount, maxRetries, true) case None => [] case Some(next) => [next])
      ensures outcome.Fetched? ==>
        var d := outcome.data;
        quotingParams == d.quotingParams.GetOr(old(quotingParams)) &&
        !isMaintenanceEnabled && !isLoading &&
        spotContract == d.spotContract.GetOr(old(spotContract)) &&
        expiryList == d.expiryList && currentExpiryDate == FirstExpiry(d.expiryList) &&
        currentSpotPrice == d.currentSpotPrice &&
        isLocationRestricted == LocationRestriction(featureEnabled, detectStatus, old(isLocationRestricted)) &&
        scheduledRetries == old(scheduledRetries)
      ensures crossChainTransactions == old(crossChainTransactions)
      ensures toastNotifications == old(toastNotifications)
    {
      if outcome.ConfigFailed? {
        return;
      }
      ithacaSDK := ReadOnlySdk;
      match outcome {
        case FetchFailed =>
          isMaintenanceEnabled := true;
          var next := NextRetry(retryCount, maxRetries, true);
          if next.Some? {
            scheduledRetries := scheduledRetries + [next.value];
          }
        case Fetched(d) =>
          // the awaited `checkLocationRestriction()`
          isLocationRestricted := LocationRestriction(featureEnabled, detectStatus, isLocationRestricted);
          quotingParams := d.quotingParams.GetOr(quotingParams);
          isMaintenanceEnabled := false;
          spotContract := d.spotContract.GetOr(spotContract);
          isLoading := false;
          expiryList := d.expiryList;
          currentExpiryDate := FirstExpiry(d.expiryList);
          currentSpotPrice := d.currentSpotPrice;
      }
    }
  }

  /** The notification list only grows: after any sequence of messages the old list is a
      prefix of the new one, extended by exactly those messages. */
  lemma {:induction false} NotificationsAppendOnly(old_: seq<SocketOrder>, messages: seq<SocketOrder>)
    ensures Deliver(old_, messages) == old_ + messages
    ensures |Deliver(old_, messages)| == |old_| + |messages|
    decreases |messages|
  {
    if messages != [] {
      NotificationsAppendOnly(old_ + [messages[0]], messages[1..]);
      assert old_ + [messages[0]] + messages[1..] == old_ + messages;
    }
  }

  /** The notification list after `OnMessage` is called for each message in turn. */
  function Deliver(notifications: seq<SocketOrder>, messages: seq<SocketOrder>): (r: seq<SocketOrder>)
    ensures |r| == |notifications| + |messages|
    ensures r[..|notifications|] == notifications
    decreases |messages|
  {
    if messages == [] then notifications else Deliver(notifications + [messages[0]], messages[1..])
  }
}
