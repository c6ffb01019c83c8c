/** The deposit / withdraw modal of src/UI/components/CollateralPanel/ManageFundsModal.tsx:
    the retry helper used after a cross-chain deposit, the submit dispatch, the footer
    label, the tutorial-step effects, the "All" button, the submit-button rule, the reset on
    close, and the deposit, withdraw and network-switch handlers. Wallet, SDK and chain
    calls are replaced by parameters giving their outcomes. */
module ManageFunds {
  import opened Wrappers
  import opened Tutorial
  import Text
  import Toasts
  import SdkStore
  import FundLockRow

  datatype ModalTab = DepositTab | WithdrawTab

  // ---------------------------------------------------------------------------
  // retryAction

  const DEFAULT_RETRIES: int := 10
  const DEFAULT_WAIT_TIME: int := 3000
  /** The message of the error raised when the last attempt fails. */
  const ALL_RETRIES_FAILED: string := "All retries failed."

  /** The number of failing attempts among attempts `0 .. n-1`. */
  function Failures(succeeds: nat -> bool, n: nat): (r: nat)
    ensures r <= n
    ensures r == n <==> forall k :: 0 <= k < n ==> !succeeds(k)
  {
    if n == 0 then 0 else Failures(succeeds, n - 1) + (if succeeds(n - 1) then 0 else 1)
  }

  /** `retryAction(action, retries, waitTime)` where attempt `k` of the action succeeds
      exactly when `succeeds(k)`. The action runs once per attempt, a success does not
      stop the loop, a failure before the last attempt is followed by a wait, and only a
      failure of the last attempt raises. `waits` lists the waits, in order. */
  method RetryAction(succeeds: nat -> bool, retries: int, waitTime: int)
    returns (invoked: nat, waits: seq<int>, failed: bool)
    ensures invoked == if retries > 0 then retries else 0
    ensures failed <==> retries > 0 && !succeeds(retries - 1)
    ensures |waits| == if retries > 0 then Failures(succeeds, retries - 1) else 0
    ensures forall k :: 0 <= k < |waits| ==> waits[k] == waitTime
  {
    invoked := 0;
    waits := [];
    failed := false;
    var attempt: nat := 0;
    while attempt < retries
      invariant attempt <= if retries > 0 then retries else 0
      invariant invoked == attempt
      invariant |waits| == Failures(succeeds, attempt)
      invariant forall k :: 0 <= k < |waits| ==> waits[k] == waitTime
      invariant !failed
      invariant 0 < attempt ==> succeeds(attempt - 1) || attempt < retries
    {
      invoked := invoked + 1;
      if !succeeds(attempt) {
        if attempt < retries - 1 {
          waits := waits + [waitTime];
        } else {
          failed := true;
          break;
        }
      }
      attempt := attempt + 1;
    }
  }

  /** With every attempt succeeding there is no wait at all. */
  lemma {:induction false} AllSucceedNoWaits(succeeds: nat -> bool, n: nat)
    requires forall k :: 0 <= k < n ==> succeeds(k)
    ensures Failures(succeeds, n) == 0
  {
    if n > 0 {
      AllSucceedNoWaits(succeeds, n - 1);
    }
  }

  /** The failures of a longer run include those of a shorter one. */
  lemma {:induction false} FailuresMonotone(succeeds: nat -> bool, m: nat, n: nat)
    requires m <= n
    ensures Failures(succeeds, m) <= Failures(succeeds, n) <= Failures(succeeds, m) + (n - m)
    decreases n - m
  {
    if m < n {
      FailuresMonotone(succeeds, m, n - 1);
    }
  }

  // ---------------------------------------------------------------------------
  // handleSubmit and the footer label

  datatype SubmitAction = SwitchNetwork | RunDeposit | RunWithdraw

  /** `handleSubmit`: `walletChain` is the wallet's chain id (None when there is no
      chain), `selectedChain` the chain selected in the modal. */
  function SubmitDispatch(walletChain: Option<int>, selectedChain: int, modalTab: Option<ModalTab>): (a: SubmitAction)
    ensures a == SwitchNetwork <==> walletChain != Some(selectedChain)
    ensures a == RunDeposit <==> walletChain == Some(selectedChain) && modalTab == Some(DepositTab)
    ensures a == RunWithdraw <==> walletChain == Some(selectedChain) && modalTab != Some(DepositTab)
  {
    if walletChain != Some(selectedChain) then SwitchNetwork
    else if modalTab == Some(DepositTab) then RunDeposit
    else RunWithdraw
  }

  datatype FooterContent = Loader | Label(text: string)

  const SWITCH_NETWORK_LABEL: string := "Switch network"
  const DEPOSIT_CROSS_CHAIN_LABEL: string := "Deposit Cross-Chain"
  const DEPOSIT_LABEL: string := "Deposit"
  const WITHDRAW_LABEL: string := "Withdraw"

  /** `modalFooterText`: the first matching case wins. */
  function ModalFooterText(inProgress: bool, selectedChain: int, walletChain: Option<int>, activeChain: int,
                           modalTab: Option<ModalTab>): (r: FooterContent)
    ensures r == Loader <==> inProgress
    ensures !inProgress && walletChain != Some(selectedChain) ==> r == Label(SWITCH_NETWORK_LABEL)
    ensures !inProgress && walletChain == Some(selectedChain) && selectedChain != activeChain ==>
              r == Label(DEPOSIT_CROSS_CHAIN_LABEL)
    ensures !inProgress && walletChain == Some(selectedChain) && selectedChain == activeChain ==>
              r == Label(if modalTab == Some(DepositTab) then DEPOSIT_LABEL else WITHDRAW_LABEL)
  {
    if inProgress then Loader
    else if walletChain != Some(selectedChain) then Label(SWITCH_NETWORK_LABEL)
    else if selectedChain != activeChain then Label(DEPOSIT_CROSS_CHAIN_LABEL)
    else if modalTab == Some(DepositTab) then Label(DEPOSIT_LABEL)
    else Label(WITHDRAW_LABEL)
  }

  /** The label names what a click does: "Switch network" exactly when the click only
      switches networks, "Deposit" and "Withdraw" when it runs that handler. The
      cross-chain label shows for either tab, and on the withdraw tab the click withdraws. */
  lemma FooterAgreesWithSubmit(selectedChain: int, walletChain: Option<int>, activeChain: int, modalTab: Option<ModalTab>)
    ensures var footer := ModalFooterText(false, selectedChain, walletChain, activeChain, modalTab);
            var action := SubmitDispatch(walletChain, selectedChain, modalTab);
            (footer == Label(SWITCH_NETWORK_LABEL) <==> action == SwitchNetwork) &&
            (footer == Label(DEPOSIT_LABEL) ==> action == RunDeposit) &&
            (footer == Label(WITHDRAW_LABEL) ==> action == RunWithdraw) &&
            (footer == Label(DEPOSIT_CROSS_CHAIN_LABEL) ==>
               action == if modalTab == Some(DepositTab) then RunDeposit else RunWithdraw)
  {
    assert SWITCH_NETWORK_LABEL[0] != DEPOSIT_CROSS_CHAIN_LABEL[0];
    assert SWITCH_NETWORK_LABEL[0] != DEPOSIT_LABEL[0];
    assert SWITCH_NETWORK_LABEL[0] != WITHDRAW_LABEL[0];
    assert DEPOSIT_LABEL[0] != WITHDRAW_LABEL[0];
    assert |DEPOSIT_LABEL| != |DEPOSIT_CROSS_CHAIN_LABEL|;
    assert DEPOSIT_CROSS_CHAIN_LABEL[0] != WITHDRAW_LABEL[0];
  }

  // ---------------------------------------------------------------------------
  // The tutorial-step effects

  /** The collateral summary of one currency. `fundLockText` is the value as rendered by
      a template string and `walletBalanceNumber` is `Number(walletBalance || 0)`. */
  datatype Collateral = Collateral(fundLockValue: real, fundLockText: string, walletBalance: string,
                                   walletBalanceNumber: real)

  const WETH: string := "WETH"

  /** The step chosen for the deposit tab: none when funds are already locked; otherwise
      the balance path when the wallet holds the token; otherwise the no-balance path of
      the selected token. */
  function InitialDepositStep(collateral: Collateral, currency: string): (r: Option<TutorialStep>)
    ensures collateral.fundLockValue != 0.0 ==> r.None?
    ensures collateral.fundLockValue == 0.0 && collateral.walletBalanceNumber != 0.0 ==>
              r == Some(DepositWithBalanceChain)
    ensures collateral.fundLockValue == 0.0 && collateral.walletBalanceNumber == 0.0 ==>
              r == Some(if currency == WETH then DepositWithoutBalanceWeth else DepositWithoutBalanceUsdc)
  {
    if collateral.fundLockValue != 0.0 then None
    else if collateral.walletBalanceNumber != 0.0 then Some(DepositWithBalanceChain)
    else if currency == WETH then Some(DepositWithoutBalanceWeth)
    else Some(DepositWithoutBalanceUsdc)
  }

  /** The two withdrawal steps, which the effects leave in place off the deposit tab. */
  predicate IsWithdrawalStep(step: Option<TutorialStep>) {
    step == Some(WithdrawalTransactionHistoryTab) || step == Some(WithdrawalReleaseFunds)
  }

  /** The step after the effect that runs when `modalTab` changes. `hasUpdateStep` is
      whether the onboarding context provides `updateStep`; `collateral` is the summary of
      the selected currency. */
  function TabEffect(modalTab: Option<ModalTab>, currentStep: Option<TutorialStep>, tutorialDisabled: bool,
                     hasUpdateStep: bool, selectedCurrency: Option<string>, collateral: Collateral): (r: Option<TutorialStep>)
    ensures !hasUpdateStep ==> r == currentStep
    ensures modalTab == Some(DepositTab) && tutorialDisabled ==> r == currentStep
    ensures modalTab != Some(DepositTab) ==> r == currentStep || r.None?
    ensures modalTab != Some(DepositTab) && IsWithdrawalStep(currentStep) ==> r == currentStep
    ensures IsWithdrawalStep(r) ==> r == currentStep
  {
    if modalTab == Some(DepositTab) then
      if !tutorialDisabled && selectedCurrency.Some? && hasUpdateStep then
        InitialDepositStep(collateral, selectedCurrency.value)
      else currentStep
    else if !IsWithdrawalStep(currentStep) && hasUpdateStep then None
    else currentStep
  }

  /** The step after the effect that runs when the step or a wallet balance changes: it
      re-chooses after a token change on the no-balance USDC step, moves the token-balance
      step to the selected token, and off the deposit path clears every non-withdrawal step. */
  function StepEffect(modalTab: Option<ModalTab>, currentStep: Option<TutorialStep>, tutorialDisabled: bool,
                      hasUpdateStep: bool, selectedCurrency: Option<string>, collateral: Collateral): (r: Option<TutorialStep>)
    ensures modalTab.None? || !hasUpdateStep ==> r == currentStep
    ensures IsWithdrawalStep(currentStep) ==> r == currentStep
    ensures IsWithdrawalStep(r) ==> r == currentStep
    ensures modalTab == Some(WithdrawTab) ==> r == currentStep || r.None?
  {
    if modalTab.None? then currentStep
    else if modalTab == Some(DepositTab) && !tutorialDisabled && hasUpdateStep && selectedCurrency.Some? then
      if currentStep == Some(DepositWithoutBalanceUsdc) then InitialDepositStep(collateral, selectedCurrency.value)
      else if currentStep == Some(DepositWithBalanceTokenUsdc) then
        Some(if selectedCurrency.value == WETH && collateral.walletBalanceNumber != 0.0
             then DepositWithBalanceTokenWeth else DepositWithBalanceTokenUsdc)
      else currentStep
    else if !IsWithdrawalStep(currentStep) && hasUpdateStep then None
    else currentStep
  }

  /** Opening the deposit tab with the tutorial on picks a deposit step, or none; it never
      picks a withdrawal step. */
  lemma DepositTabChoosesDepositStep(currentStep: Option<TutorialStep>, currency: string, collateral: Collateral)
    ensures var r := TabEffect(Some(DepositTab), currentStep, false, true, Some(currency), collateral);
      r == InitialDepositStep(collateral, currency) && !IsWithdrawalStep(r) &&
      (r.Some? ==> r.value in {DepositWithBalanceChain, DepositWithoutBalanceWeth, DepositWithoutBalanceUsdc})
  {
  }

  /** Off the deposit tab, a withdrawal step survives both effects, and every other step
      is cleared when `updateStep` is available. */
  lemma WithdrawalStepSurvives(modalTab: Option<ModalTab>, currentStep: Option<TutorialStep>, tutorialDisabled: bool,
                               selectedCurrency: Option<string>, collateral: Collateral)
    requires modalTab == Some(WithdrawTab)
    ensures IsWithdrawalStep(currentStep) ==>
      TabEffect(modalTab, currentStep, tutorialDisabled, true, selectedCurrency, collateral) == currentStep &&
      StepEffect(modalTab, currentStep, tutorialDisabled, true, selectedCurrency, collateral) == currentStep
    ensures !IsWithdrawalStep(currentStep) ==>
      TabEffect(modalTab, currentStep, tutorialDisabled, true, selectedCurrency, collateral).None? &&
      StepEffect(modalTab, currentStep, tutorialDisabled, true, selectedCurrency, collateral).None?
  {
  }

  /** The step effect depends on the step it writes, so it runs again on its own result;
      that second run changes nothing, so the effect settles after one update. */
  lemma StepEffectSettles(modalTab: Option<ModalTab>, currentStep: Option<TutorialStep>, tutorialDisabled: bool,
                          hasUpdateStep: bool, selectedCurrency: Option<string>, collateral: Collateral)
    ensures var once := StepEffect(modalTab, currentStep, tutorialDisabled, hasUpdateStep, selectedCurrency, collateral);
      StepEffect(modalTab, once, tutorialDisabled, hasUpdateStep, selectedCurrency, collateral) == once
  {
  }

  /** On the no-balance USDC step, a token change re-runs the same chooser as opening the
      deposit tab. */
  lemma StepEffectRechoosesLikeTabEffect(currentStep: Option<TutorialStep>, currency: string, collateral: Collateral)
    ensures StepEffect(Some(DepositTab), Some(DepositWithoutBalanceUsdc), false, true, Some(currency), collateral) ==
            TabEffect(Some(DepositTab), currentStep, false, true, Some(currency), collateral)
  {
  }

  // ---------------------------------------------------------------------------
  // The amount field

  /** The submit button is disabled exactly when no amount is entered. */
  predicate SubmitDisabled(modalAmount: string): (r: bool)
    ensures !r ==> |modalAmount| > 0
  {
    modalAmount == ""
  }

  /** What "All" puts in the amount field: the wallet balance when depositing, the
      locked funds otherwise. */
  function AllAmount(modalTab: Option<ModalTab>, collateral: Collateral): (r: string)
    ensures modalTab == Some(DepositTab) ==> r == collateral.walletBalance
    ensures modalTab != Some(DepositTab) ==> r == collateral.fundLockText
  {
    if modalTab == Some(DepositTab) then collateral.walletBalance else collateral.fundLockText
  }

  // ---------------------------------------------------------------------------
  // Toasts and records of the handlers

  const DEPOSIT_SUCCESSFUL: string := "Deposit successful"
  const CROSS_CHAIN_DEPOSIT_SUCCESSFUL: string := "Cross-chain deposit successful"
  const DEPOSIT_UNSUCCESSFUL: string := "Deposit unsuccessful"
  const DEPOSIT_FAILED_MESSAGE: string := "Failed to deposit, please try again."
  const WITHDRAW_SUCCESSFUL: string := "Withdraw successful"
  const WITHDRAWAL_UNSUCCESSFUL: string := "Withdrawal unsuccessful"
  const WITHDRAW_FAILED_MESSAGE: string := "Failed to withdraw, please try again."
  const SWITCH_FAILED: string := "Failed to switch network"
  const FUND_LOCK_HISTORY_TAB: string := "fundLockHistory"

  /** "<amount> <currency> deposited to fundlock" */
  function DepositedMessage(amount: string, currency: string): string {
    amount + " " + currency + " deposited to fundlock"
  }

  /** "You can release funds in 180 Mins" */
  function WithdrawnMessage(): string {
    "You can release funds in " + Text.Decimal(FundLockRow.HOW_MANY_MINUTES_AFTER_DEPOSIT_CAN_RELEASE) + " Mins"
  }

  /** An attempt of the status fetch succeeds when it returns a status. */
  function Fetched(fetchStatus: nat -> Option<string>): nat -> bool {
    (k: nat) => fetchStatus(k).Some?
  }

  /** The transactions recorded by the successful attempts among `0 .. n-1`, in order. */
  function StatusRecords(route: string, fetchStatus: nat -> Option<string>, clock: nat -> int, n: nat)
    : seq<SdkStore.CrossChainTransaction>
  {
    if n == 0 then []
    else
      var last := match fetchStatus(n - 1)
        case None => []
        case Some(status) => [SdkStore.CrossChainTransaction(route, status, clock(n - 1))];
      StatusRecords(route, fetchStatus, clock, n - 1) + last
  }

  /** The toasts of the successful attempts among `0 .. n-1`. */
  function StatusToasts(toastId: int, message: string, fetchStatus: nat -> Option<string>, n: nat)
    : seq<Toasts.ToastItem>
  {
    if n == 0 then []
    else
      var last := if fetchStatus(n - 1).Some?
        then [Toasts.BasicToast(toastId, CROSS_CHAIN_DEPOSIT_SUCCESSFUL, message, Toasts.SUCCESS)]
        else [];
      StatusToasts(toastId, message, fetchStatus, n - 1) + last
  }

  /** Every successful attempt, and only those, records one transaction and one toast. */
  lemma {:induction false} OneRecordPerSuccess(route: string, fetchStatus: nat -> Option<string>, clock: nat -> int,
                                               toastId: int, message: string, n: nat)
    ensures |StatusRecords(route, fetchStatus, clock, n)| == n - Failures(Fetched(fetchStatus), n)
    ensures |StatusToasts(toastId, message, fetchStatus, n)| == n - Failures(Fetched(fetchStatus), n)
  {
    if n > 0 {
      OneRecordPerSuccess(route, fetchStatus, clock, toastId, message, n - 1);
      assert Fetched(fetchStatus)(n - 1) == fetchStatus(n - 1).Some?;
    }
  }

  /** What the wallet, the chain and the SDK do during one submission: the error of the
      network switch (None when it succeeds), whether a wallet client exists, whether the
      same-chain deposit and its receipt succeed, whether the cross-chain deposit and its
      receipt succeed, the status returned by each attempt of the status fetch (None when
      it throws) with the clock at that attempt, and whether the withdrawal succeeds. */
  datatype WalletEvents = WalletEvents(
    switchError: Option<string>,
    hasWalletClient: bool,
    depositOk: bool,
    crossChainOk: bool,
    fetchStatus: nat -> Option<string>,
    clock: nat -> int,
    withdrawOk: bool)

  // ---------------------------------------------------------------------------
  // The component state

  /** One call of the parent's `setIsFetchingBalanceEnabled(item, currency)`. */
  datatype FetchingCall = FetchingCall(enabled: bool, currency: Option<string>)

  class ManageFundsModal {
    /** The chain the protocol runs on (`getActiveChain().id`). */
    const activeChain: int
    /** Whether the onboarding context provides `updateStep`. */
    const hasUpdateStep: bool
    /** Whether the parent passes the optional `setIsFetchingBalanceEnabled` prop. */
    const hasSetFetchingBalance: bool
    /** Whether the parent passes the optional `setDashboardTab` prop. */
    const hasSetDashboardTab: bool
    const toasts: Toasts.ToastStore
    const store: SdkStore.IthacaStore

    var modalTab: Option<ModalTab>
    var modalAmount: string
    var sourceChainAmount: string
    var isTransactionInProgress: bool
    var selectedChain: int
    var sourceChainCurrency: Option<string>
    var selectedCurrency: Option<string>
    var crossChainTxnRoute: Option<string>
    /** The onboarding step (the context's `currentStep`). */
    var currentStep: Option<TutorialStep>
    /** The last call the modal made of the parent's `setIsFetchingBalanceEnabled`, None
        while it has made none. */
    var fetchingBalance: Option<FetchingCall>
    /** The parent's dashboard tab, when the modal has set it. */
    var dashboardTab: Option<string>

    ghost predicate Valid()
      reads this, store
    {
      store.Valid()
    }

    /** The state every close leaves behind. */
    ghost predicate Closed()
      reads this
    {
      modalTab.None? && sourceChainAmount == "" && modalAmount == "" && crossChainTxnRoute.None? &&
      selectedChain == activeChain && sourceChainCurrency.None? && selectedCurrency.None? &&
      (hasUpdateStep ==> currentStep.None?)
    }

    /** What a close leaves, with the step kept when there is no `updateStep`. */
    twostate predicate ClosedAfter()
      reads this
    {
      Closed() && (!hasUpdateStep ==> currentStep == old(currentStep))
    }

    /** Every field of the form keeps its value. */
    twostate predicate FormKept()
      reads this
    {
      modalTab == old(modalTab) && modalAmount == old(modalAmount) && sourceChainAmount == old(sourceChainAmount) &&
      selectedChain == old(selectedChain) && sourceChainCurrency == old(sourceChainCurrency) &&
      selectedCurrency == old(selectedCurrency) && crossChainTxnRoute == old(crossChainTxnRoute) &&
      currentStep == old(currentStep)
    }

    /** The store's transaction list, its stored copy and the storage events are unchanged. */
    twostate predicate StoreKept()
      reads store
    {
      store.crossChainTransactions == old(store.crossChainTransactions) &&
      store.storedCrossChainTransactions == old(store.storedCrossChainTransactions) &&
      store.storageEvents == old(store.storageEvents)
    }

    /** What `handleFetchingBalance(status)` leaves in `fetchingBalance`: a call with the
        currency selected when the handler started, or nothing when the parent passed no
        setter. */
    twostate function FetchingAfter(status: bool): Option<FetchingCall>
      reads this
    {
      if hasSetFetchingBalance then Some(FetchingCall(status, old(selectedCurrency))) else old(fetchingBalance)
    }

    constructor (activeChain: int, hasUpdateStep: bool, hasSetFetchingBalance: bool, hasSetDashboardTab: bool,
                 toasts: Toasts.ToastStore, store: SdkStore.IthacaStore,
                 modalTab: Option<ModalTab>, selectedCurrency: Option<string>, currentStep: Option<TutorialStep>)
      requires store.Valid()
      ensures Valid()
      ensures this.activeChain == activeChain && this.hasUpdateStep == hasUpdateStep
      ensures this.hasSetFetchingBalance == hasSetFetchingBalance && this.hasSetDashboardTab == hasSetDashboardTab
      ensures this.toasts == toasts && this.store == store
      ensures this.modalTab == modalTab && this.selectedCurrency == selectedCurrency
      ensures this.currentStep == currentStep
      ensures modalAmount == "" && sourceChainAmount == "" && !isTransactionInProgress
      ensures selectedChain == activeChain && sourceChainCurrency.None? && crossChainTxnRoute.None?
      ensures fetchingBalance.None? && dashboardTab.None?
    {
      this.activeChain := activeChain;
      this.hasUpdateStep := hasUpdateStep;
      this.hasSetFetchingBalance := hasSetFetchingBalance;
      this.hasSetDashboardTab := hasSetDashboardTab;
      this.toasts := toasts;
      this.store := store;
      this.modalTab := modalTab;
      this.selectedCurrency := selectedCurrency;
      this.currentStep := currentStep;
      modalAmount := "";
      sourceChainAmount := "";
      isTransactionInProgress := false;
      selectedChain := activeChain;
      sourceChainCurrency := None;
      crossChainTxnRoute := None;
      fetchingBalance := None;
      dashboardTab := None;
    }

    /** `handleCloseModal`: every field of the form is reset. */
    method HandleCloseModal()
      modifies this
      ensures Closed() && ClosedAfter()
      ensures SubmitDisabled(modalAmount)
      ensures currentStep == if hasUpdateStep then None else old(currentStep)
      ensures isTransactionInProgress == old(isTransactionInProgress)
      ensures fetchingBalance == old(fetchingBalance) && dashboardTab == old(dashboardTab)
    {
      if hasUpdateStep {
        currentStep := None;
      }
      modalTab := None;
      sourceChainAmount := "";
      modalAmount := "";
      crossChainTxnRoute := None;
      selectedChain := activeChain;
      sourceChainCurrency := None;
      selectedCurrency := None;
    }

    /** `handleFetchingBalance`: passes the status and the selected currency to the
        parent's setter, when there is one. */
    method HandleFetchingBalance(status: bool)
      modifies this`fetchingBalance
      ensures fetchingBalance == FetchingAfter(status)
      ensures hasSetFetchingBalance ==> fetchingBalance == Some(FetchingCall(status, selectedCurrency))
      ensures !hasSetFetchingBalance ==> fetchingBalance == old(fetchingBalance)
    {
      if hasSetFetchingBalance {
        fetchingBalance := Some(FetchingCall(status, selectedCurrency));
      }
    }

    /** The "All" button, which only exists while the selected chain is the active one;
      `collateral` is the summary of the selected currency. */
    method SelectAll(collateral: Collateral)
      modifies this`modalAmount
      ensures selectedChain == activeChain && selectedCurrency.Some? ==>
                modalAmount == AllAmount(modalTab, collateral)
      ensures !(selectedChain == activeChain && selectedCurrency.Some?) ==> modalAmount == old(modalAmount)
    {
      if selectedChain == activeChain && selectedCurrency.Some? {
        if modalTab == Some(DepositTab) {
          modalAmount := collateral.walletBalance;
        } else {
          modalAmount := collateral.fundLockText;
        }
      }
    }

    /** What `switchNetwork` does: the switch itself happens in the wallet; a failure
        shows an error toast with the wallet's message. Without a wallet client nothing is
        attempted. */
    twostate predicate SwitchOutcome(hasWalletClient: bool, switchError: Option<string>, toastId: int)
      reads this, toasts
    {
      !isTransactionInProgress &&
      toasts.toastList == old(toasts.toastList) +
        (if hasWalletClient && switchError.Some?
         then [Toasts.ErrorToast(toastId, SWITCH_FAILED, switchError.value)] else []) &&
      FormKept()
    }

    /** `switchNetwork` */
    method SwitchNetworkAction(hasWalletClient: bool, switchError: Option<string>, toastId: int)
      modifies this, toasts
      ensures SwitchOutcome(hasWalletClient, switchError, toastId)
      ensures fetchingBalance == old(fetchingBalance) && dashboardTab == old(dashboardTab)
    {
      isTransactionInProgress := true;
      if hasWalletClient && switchError.Some? {
        toasts.ShowToast(Toasts.ErrorToast(toastId, SWITCH_FAILED, switchError.value), Toasts.BOTTOM_RIGHT);
      }
      isTransactionInProgress := false;
    }

    /** The `catch` of both handlers: re-enable balance fetching and show an error toast. */
    method Failed(toastId: int, title: string, message: string)
      modifies this, toasts
      ensures fetchingBalance == FetchingAfter(true)
      ensures toasts.toastList == old(toasts.toastList) + [Toasts.ErrorToast(toastId, title, message)]
      ensures modalAmount == old(modalAmount) && modalTab == old(modalTab) && selectedChain == old(selectedChain)
      ensures selectedCurrency == old(selectedCurrency) && currentStep == old(currentStep)
      ensures sourceChainAmount == old(sourceChainAmount) && crossChainTxnRoute == old(crossChainTxnRoute)
      ensures sourceChainCurrency == old(sourceChainCurrency) && dashboardTab == old(dashboardTab)
      ensures isTransactionInProgress == old(isTransactionInProgress)
      ensures FormKept()
    {
      HandleFetchingBalance(true);
      toasts.ShowToast(Toasts.ErrorToast(toastId, title, message), Toasts.BOTTOM_RIGHT);
    }

    /** What `deposit` does. On the active chain: deposit, a success toast, then balance
        fetching off and the modal closed. Across chains, with a wallet client and a route:
        the cross-chain deposit, then the status fetch retried `DEFAULT_RETRIES` times, each
        success recording the transaction and showing a toast; after that the modal
        closes, unless the last attempt failed. Any failure shows the deposit error toast
        instead and turns balance fetching back on. */
    twostate predicate DepositOutcome(events: WalletEvents, toastId: int)
      reads this, toasts, store
    {
      var currency := old(selectedCurrency);
      (currency.Some? ==> !isTransactionInProgress) &&
      (currency.None? ==>
        isTransactionInProgress == old(isTransactionInProgress) &&
        toasts.toastList == old(toasts.toastList) && StoreKept() && FormKept() &&
        fetchingBalance == old(fetchingBalance)) &&
      (currency.Some? && old(selectedChain) == activeChain ==>
        var message := DepositedMessage(old(modalAmount), currency.value);
        StoreKept() &&
        (events.depositOk ==>
           toasts.toastList == old(toasts.toastList) +
             [Toasts.BasicToast(toastId, DEPOSIT_SUCCESSFUL, message, Toasts.SUCCESS)] &&
           fetchingBalance == FetchingAfter(false) && ClosedAfter()) &&
        (!events.depositOk ==>
           toasts.toastList == old(toasts.toastList) +
             [Toasts.ErrorToast(toastId, DEPOSIT_UNSUCCESSFUL, DEPOSIT_FAILED_MESSAGE)] &&
           fetchingBalance == FetchingAfter(true) && FormKept())) &&
      (currency.Some? && old(selectedChain) != activeChain &&
       !(events.hasWalletClient && old(crossChainTxnRoute).Some?) ==>
        toasts.toastList == old(toasts.toastList) && StoreKept() && FormKept() &&
        fetchingBalance == old(fetchingBalance)) &&
      (currency.Some? && old(selectedChain) != activeChain &&
       events.hasWalletClient && old(crossChainTxnRoute).Some? && !events.crossChainOk ==>
        toasts.toastList == old(toasts.toastList) +
          [Toasts.ErrorToast(toastId, DEPOSIT_UNSUCCESSFUL, DEPOSIT_FAILED_MESSAGE)] &&
        StoreKept() && fetchingBalance == FetchingAfter(true) && FormKept()) &&
      (currency.Some? && old(selectedChain) != activeChain &&
       events.hasWalletClient && old(crossChainTxnRoute).Some? && events.crossChainOk ==>
        var message := DepositedMessage(old(modalAmount), currency.value);
        var lastFailed := events.fetchStatus(DEFAULT_RETRIES - 1).None?;
        store.crossChainTransactions == old(store.crossChainTransactions) +
          StatusRecords(old(crossChainTxnRoute).value, events.fetchStatus, events.clock, DEFAULT_RETRIES) &&
        toasts.toastList == old(toasts.toastList) + StatusToasts(toastId, message, events.fetchStatus, DEFAULT_RETRIES) +
          (if lastFailed then [Toasts.ErrorToast(toastId, DEPOSIT_UNSUCCESSFUL, DEPOSIT_FAILED_MESSAGE)] else []) &&
        (lastFailed ==> fetchingBalance == FetchingAfter(true) && FormKept()) &&
        (!lastFailed ==> fetchingBalance == FetchingAfter(false) && ClosedAfter()))
    }

    /** `deposit` */
    method Deposit(events: WalletEvents, toastId: int)
      requires Valid()
      modifies this, toasts, store`crossChainTransactions, store`storedCrossChainTransactions, store`storageEvents
      ensures Valid()
      ensures DepositOutcome(events, toastId)
      ensures dashboardTab == old(dashboardTab)
    {
      if selectedCurrency.None? {
        return;
      }
      if selectedChain == activeChain {
        DepositOnActiveChain(events.depositOk, toastId);
      } else {
        DepositCrossChain(events, toastId);
      }
    }

    /** The same-chain branch of `deposit`. */
    method DepositOnActiveChain(depositOk: bool, toastId: int)
      requires Valid() && selectedCurrency.Some? && selectedChain == activeChain
      modifies this, toasts
      ensures Valid()
      ensures !isTransactionInProgress && dashboardTab == old(dashboardTab)
      ensures var message := DepositedMessage(old(modalAmount), old(selectedCurrency).value);
        (depositOk ==>
           toasts.toastList == old(toasts.toastList) +
             [Toasts.BasicToast(toastId, DEPOSIT_SUCCESSFUL, message, Toasts.SUCCESS)] &&
           fetchingBalance == FetchingAfter(false) && ClosedAfter()) &&
        (!depositOk ==>
           toasts.toastList == old(toasts.toastList) +
             [Toasts.ErrorToast(toastId, DEPOSIT_UNSUCCESSFUL, DEPOSIT_FAILED_MESSAGE)] &&
           fetchingBalance == FetchingAfter(true) && FormKept())
    {
      var message := DepositedMessage(modalAmount, selectedCurrency.value);
      isTransactionInProgress := true;
      if !depositOk {
        Failed(toastId, DEPOSIT_UNSUCCESSFUL, DEPOSIT_FAILED_MESSAGE);
        isTransactionInProgress := false;
        return;
      }
      toasts.ShowToast(Toasts.BasicToast(toastId, DEPOSIT_SUCCESSFUL, message, Toasts.SUCCESS), Toasts.BOTTOM_RIGHT);
      HandleFetchingBalance(false);
      HandleCloseModal();
      isTransactionInProgress := false;
    }

    /** The cross-chain branch of `deposit`. */
    method DepositCrossChain(events: WalletEvents, toastId: int)
      requires Valid() && selectedCurrency.Some? && selectedChain != activeChain
      modifies this, toasts, store`crossChainTransactions, store`storedCrossChainTransactions, store`storageEvents
      ensures Valid()
      ensures !isTransactionInProgress && dashboardTab == old(dashboardTab)
      ensures !(events.hasWalletClient && old(crossChainTxnRoute).Some?) ==>
        toasts.toastList == old(toasts.toastList) && StoreKept() && FormKept() &&
        fetchingBalance == old(fetchingBalance)
      ensures events.hasWalletClient && old(crossChainTxnRoute).Some? && !events.crossChainOk ==>
        toasts.toastList == old(toasts.toastList) +
          [Toasts.ErrorToast(toastId, DEPOSIT_UNSUCCESSFUL, DEPOSIT_FAILED_MESSAGE)] &&
        StoreKept() && fetchingBalance == FetchingAfter(true) && FormKept()
      ensures events.hasWalletClient && old(crossChainTxnRoute).Some? && events.crossChainOk ==>
        var message := DepositedMessage(old(modalAmount), old(selectedCurrency).value);
        var lastFailed := events.fetchStatus(DEFAULT_RETRIES - 1).None?;
        store.crossChainTransactions == old(store.crossChainTransactions) +
          StatusRecords(old(crossChainTxnRoute).value, events.fetchStatus, events.clock, DEFAULT_RETRIES) &&
        toasts.toastList == old(toasts.toastList) + StatusToasts(toastId, message, events.fetchStatus, DEFAULT_RETRIES) +
          (if lastFailed then [Toasts.ErrorToast(toastId, DEPOSIT_UNSUCCESSFUL, DEPOSIT_FAILED_MESSAGE)] else []) &&
        (lastFailed ==> fetchingBalance == FetchingAfter(true) && FormKept()) &&
        (!lastFailed ==> fetchingBalance == FetchingAfter(false) && ClosedAfter())
    {
      var message := DepositedMessage(modalAmount, selectedCurrency.value);
      isTransactionInProgress := true;
      if !events.hasWalletClient || crossChainTxnRoute.None? {
        isTransactionInProgress := false;
        return;
      }
      if !events.crossChainOk {
        Failed(toastId, DEPOSIT_UNSUCCESSFUL, DEPOSIT_FAILED_MESSAGE);
        isTransactionInProgress := false;
        return;
      }
      var _, _, failed := RetryAction(Fetched(events.fetchStatus), DEFAULT_RETRIES, DEFAULT_WAIT_TIME);
      RecordStatusFetches(crossChainTxnRoute.value, events.fetchStatus, events.clock, toastId, message);
      assert failed == events.fetchStatus(DEFAULT_RETRIES - 1).None?;
      if failed {
        Failed(toastId, DEPOSIT_UNSUCCESSFUL, DEPOSIT_FAILED_MESSAGE);
        isTransactionInProgress := false;
        return;
      }
      HandleFetchingBalance(false);
      HandleCloseModal();
      isTransactionInProgress := false;
    }

    /** The effects of the attempts of `fetchAxelarStatus` that fetched a status, in
        attempt order: each records the transaction in the store and shows a toast. */
    method RecordStatusFetches(route: string, fetchStatus: nat -> Option<string>, clock: nat -> int,
                               toastId: int, message: string)
      requires store.Valid()
      modifies toasts, store`crossChainTransactions, store`storedCrossChainTransactions, store`storageEvents
      ensures store.Valid()
      ensures store.crossChainTransactions ==
        old(store.crossChainTransactions) + StatusRecords(route, fetchStatus, clock, DEFAULT_RETRIES)
      ensures toasts.toastList == old(toasts.toastList) + StatusToasts(toastId, message, fetchStatus, DEFAULT_RETRIES)
    {
      var k: nat := 0;
      while k < DEFAULT_RETRIES
        invariant k <= DEFAULT_RETRIES
        invariant store.Valid()
        invariant store.crossChainTransactions ==
          old(store.crossChainTransactions) + StatusRecords(route, fetchStatus, clock, k)
        invariant toasts.toastList == old(toasts.toastList) + StatusToasts(toastId, message, fetchStatus, k)
      {
        var status := fetchStatus(k);
        if status.Some? {
          store.AddCrossChainTransaction(SdkStore.CrossChainTransaction(route, status.value, clock(k)));
          toasts.ShowToast(Toasts.BasicToast(toastId, CROSS_CHAIN_DEPOSIT_SUCCESSFUL, message, Toasts.SUCCESS),
                           Toasts.BOTTOM_RIGHT);
        }
        k := k + 1;
      }
    }

    /** What `withdraw` does: on success, balance fetching off, a success toast, the
        tutorial moved to the transaction-history step and, when the parent passes its
        setter, the dashboard to the history tab; the modal stays open. On failure the
        withdrawal error toast and balance fetching back on. */
    twostate predicate WithdrawOutcome(withdrawOk: bool, toastId: int)
      reads this, toasts
    {
      (old(selectedCurrency).Some? ==> !isTransactionInProgress) &&
      (old(selectedCurrency).None? ==>
        isTransactionInProgress == old(isTransactionInProgress) &&
        toasts.toastList == old(toasts.toastList) && fetchingBalance == old(fetchingBalance) &&
        currentStep == old(currentStep) && dashboardTab == old(dashboardTab)) &&
      (old(selectedCurrency).Some? && withdrawOk ==>
        fetchingBalance == FetchingAfter(false) &&
        toasts.toastList == old(toasts.toastList) +
          [Toasts.BasicToast(toastId, WITHDRAW_SUCCESSFUL, WithdrawnMessage(), Toasts.SUCCESS)] &&
        currentStep == (if hasUpdateStep then Some(WithdrawalTransactionHistoryTab) else old(currentStep)) &&
        dashboardTab == (if hasSetDashboardTab then Some(FUND_LOCK_HISTORY_TAB) else old(dashboardTab))) &&
      (old(selectedCurrency).Some? && !withdrawOk ==>
        fetchingBalance == FetchingAfter(true) &&
        toasts.toastList == old(toasts.toastList) +
          [Toasts.ErrorToast(toastId, WITHDRAWAL_UNSUCCESSFUL, WITHDRAW_FAILED_MESSAGE)] &&
        currentStep == old(currentStep) && dashboardTab == old(dashboardTab)) &&
      modalTab == old(modalTab) && modalAmount == old(modalAmount) && selectedCurrency == old(selectedCurrency) &&
      selectedChain == old(selectedChain) && sourceChainAmount == old(sourceChainAmount) &&
      sourceChainCurrency == old(sourceChainCurrency) && crossChainTxnRoute == old(crossChainTxnRoute)
    }

    /** `withdraw` */
    method Withdraw(withdrawOk: bool, toastId: int)
      modifies this, toasts
      ensures WithdrawOutcome(withdrawOk, toastId)
    {
      if selectedCurrency.None? {
        return;
      }
      isTransactionInProgress := true;
      if withdrawOk {
        HandleFetchingBalance(false);
        toasts.ShowToast(Toasts.BasicToast(toastId, WITHDRAW_SUCCESSFUL, WithdrawnMessage(), Toasts.SUCCESS),
                         Toasts.BOTTOM_RIGHT);
        if hasUpdateStep {
          currentStep := Some(WithdrawalTransactionHistoryTab);
        }
        if hasSetDashboardTab {
          dashboardTab := Some(FUND_LOCK_HISTORY_TAB);
        }
      } else {
        Failed(toastId, WITHDRAWAL_UNSUCCESSFUL, WITHDRAW_FAILED_MESSAGE);
      }
      isTransactionInProgress := false;
    }

    /** `handleSubmit`: runs exactly the handler `SubmitDispatch` names, with that
        handler's outcome. */
    method HandleSubmit(walletChain: Option<int>, events: WalletEvents, toastId: int)
      requires Valid()
      modifies this, toasts, store`crossChainTransactions, store`storedCrossChainTransactions, store`storageEvents
      ensures Valid()
      ensures SubmitDispatch(walletChain, old(selectedChain), old(modalTab)) == SwitchNetwork ==>
        SwitchOutcome(events.hasWalletClient, events.switchError, toastId) && StoreKept() &&
        fetchingBalance == old(fetchingBalance) && dashboardTab == old(dashboardTab)
      ensures SubmitDispatch(walletChain, old(selectedChain), old(modalTab)) == RunDeposit ==>
        DepositOutcome(events, toastId) && dashboardTab == old(dashboardTab)
      ensures SubmitDispatch(walletChain, old(selectedChain), old(modalTab)) == RunWithdraw ==>
        WithdrawOutcome(events.withdrawOk, toastId) && StoreKept()
    {
      var action := SubmitDispatch(walletChain, selectedChain, modalTab);
      match action {
        case SwitchNetwork =>
          SwitchNetworkAction(events.hasWalletClient, events.switchError, toastId);
        case RunDeposit =>
          Deposit(events, toastId);
        case RunWithdraw =>
          Withdraw(events.withdrawOk, toastId);
      }
    }
  }
}
