/** The onboarding tutorial steps that the modelled components read or set (the
    TutorialSteps enumeration; only the members they mention). */
module Tutorial {

  datatype TutorialStep =
    | DepositWithBalanceChain
    | DepositWithBalanceTokenUsdc
    | DepositWithBalanceTokenWeth
    | DepositWithoutBalanceUsdc
    | DepositWithoutBalanceWeth
    | WithdrawalTransactionHistoryTab
    | WithdrawalReleaseFunds
    | Other(name: string)   // every other step of the enumeration
}
