# Ithaca trading front end: pricing and client-side rules in Dafny

The Ithaca interface is a web front end for an options exchange: users see an
options table, build orders, submit them to a periodic auction, and move collateral
into and out of the fund lock, sometimes from another chain. This project models the
part of it that is decision logic rather than wallet, SDK or rendering plumbing, and
proves properties of that model.

- **Pricing** (`pricing.dfy`): `calculateBidAsk`. It turns a mid-price into a bid or
  ask. The option type picks the spread and the floor: the digital spread for binaries,
  an asymmetric 0.4/0.6 split for forwards, a spot-scaled vanilla spread for the rest. A
  forced spread overrides the type's spread, and a missing spread is the one error.
- **Options table** (`options_table.dfy`): the best quote per strike, the price-list
  request and the rows displayed.
- **Fund-lock row** (`fund_lock_row.dfy`): the release countdown of a withdrawal, with
  its mm:ss label, and the activity and release cells.
- **Analytics** (`analytics.dfy`): the per-day rows of the trade-volume and
  daily-volume charts.
- **Deposit / withdraw modal** (`manage_funds.dfy`):
  - the retry helper;
  - the submit dispatch and the footer label;
  - the tutorial-step effects;
  - the "All" button and the disable rule;
  - the reset on close;
  - the deposit, withdraw and network-switch handlers.
- **Submit button** (`submit_button.dfy`): the order-summary submit gating, the click
  action, the warning and the button shown.
- **Display name** (`user_display.dfy`): "You" for the connected wallet's own row.
- **Close position** (`close_position.dfy`): the one-leg closing order, its estimation
  and its submission.
- **Application shell** (`app_shell.dfy`):
  - the toast for each order-status message;
  - points-page gating;
  - the expiry re-check delay;
  - the maintenance switch.
- **Protocol store** (`sdk_store.dfy`): the zustand slice holding the SDK state;
  - socket messages and notifications;
  - the cross-chain transaction list and its copy in local storage;
  - the location and maintenance checks;
  - disconnecting;
  - the protocol initialisation with bounded retries.
- **Toast buffer** (`toasts.dfy`): `useToast` and its typed helpers.
- **Access management** (`access_management.dfy`): the delegate and API-key table and
  revoking its rows.

Shared modules:
- `wrappers.dfy`: Option and Result.
- `text.dfy`: ASCII lower-casing, `String(n)`, `padStart` and `includes`.
- `tutorial.dfy`: the tutorial steps the components use.

How the model is built:
- Pure code is functions over datatypes. Numbers are `real`; times are `int`
  milliseconds.
- Component and store state is classes whose methods change their fields. Each method's
  `modifies` clause names the objects or single fields it may change, so every field
  outside it is unchanged. Its `ensures` gives the new value of each field it may change.
  One field is the exception: the toast buffer's `position` is stated only by the
  toast-buffer methods, by `AppShell.Shell.OnNewToast` and by
  `ClosePosition.ClosePositionModal.SubmitOrder`.
- Loops in the source are `while`/`for` loops with invariants:
  - the per-strike selection;
  - the per-day row construction;
  - the retry loop;
  - the status-fetch effects of a cross-chain deposit;
  - `revokeAll`.
- Outcomes of SDK, wallet and network calls are parameters (`bool` or `Option`).
- Helpers from libraries are function-typed parameters:
  - the date formatter;
  - `getNumber`, `calculateNetPrice`, `calculateTotalPremium` and `calculateTotalPremiumPlain`;
  - `isAddress` and `getTruncateEthAddress`.
- A toast id comes from `Math.random` in the source and is a parameter here.

Three behaviours of `calculateBidAsk` (src/services/pricing/helpers.ts) differ from what
its names and constants suggest. The model follows the code as written:
- `MINIMUM_PRICE` reads as a floor, but outside the forward branch it replaces the price
  only when the price is `<= 0` (line 69). A positive price below it is returned unchanged.
- The error "Unable to determine totalSpread. Provide valid quotingParams or forcedSpread."
  (line 56) can be raised only for binary types. Every other type has a spread by then.
- The module-level `MINIMUM_PRICE = 0.01` (line 4) is shadowed by the local
  `let MINIMUM_PRICE` (line 33) and is never used.

## Model

| member | source | states |
|---|---|---|
| Pricing.CalculateBidAsk | src/services/pricing/helpers.ts:24-70 | the result, when there is one, is strictly positive; it is an error exactly for a binary type priced from quoting params with no digital spread |
| Pricing.ApplySpread | src/services/pricing/helpers.ts:50-69 | after dispatch: an error exactly when neither a forced spread nor the type's spread exists; otherwise a positive price |
| Pricing.ForwardPricing | src/services/pricing/helpers.ts:39-44 | the forward result is max(mid − 0.4·s, 0.001) for SELL and max(mid + 0.6·s, 0.001) otherwise, where s is FORWARD_SPREAD or 0; it is never below 0.001 |
| Pricing.ForwardIgnoresForcedSpread | src/services/pricing/helpers.ts:39-44 | a forced spread on a forward prices exactly as if FORWARD_SPREAD were absent or 0 |
| Pricing.ForwardAskAtLeastBid | src/services/pricing/helpers.ts:42-44 | with a non-negative forward spread the ask is at least the bid |
| Pricing.ForwardWidthIsSpread | src/services/pricing/helpers.ts:42-44 | unfloored, the forward ask and bid are one spread apart, 0.6 above and 0.4 below the mid-price |
| Pricing.VanillaPricing | src/services/pricing/helpers.ts:45-48 | a type that is neither binary nor forward uses (VANILLA_SPREAD ?? 0)/10000 × spot as spread and 0.001 as floor |
| Pricing.BinaryPricing | src/services/pricing/helpers.ts:36-38 | binary types with a digital spread use that spread and the floor 0.0001 |
| Pricing.ForcedSpreadOverrides | src/services/pricing/helpers.ts:50-53 | for every non-forward type a forced spread replaces the type's spread |
| Pricing.NonForwardFloor | src/services/pricing/helpers.ts:59-69 | outside the forward branch the candidate mid ± spread/2 is returned iff it is strictly positive; otherwise the type's floor is returned |
| Pricing.OnlyBinaryFails | src/services/pricing/helpers.ts:36-57 | forwards, non-binary types and forced spreads never fail |
| Pricing.NonSellIsBuy | src/services/pricing/helpers.ts:44 | any side other than "SELL" is priced as "BUY" |
| Pricing.ModuleMinimumShadowed | src/services/pricing/helpers.ts:4-69 | for every non-forward type, with a forced spread or the quoting params' spread, a floored result is 0.0001 or 0.001, never the module constant 0.01 (forwards floor at 0.001, see `ForwardPricing`) |
| Pricing.VanillaExample | src/services/pricing/helpers.ts:45-69 | 5.25 at spot 2000 is a spread of 1.05: 9.475 and 10.525 around 10 |
| Pricing.ForwardExample | src/services/pricing/helpers.ts:39-44 | a forward spread of 1.05 around 1 gives a bid of 0.58 and an ask of 1.63 |
| Pricing.FloorExamples | src/services/pricing/helpers.ts:69 | negative candidates become 0.0001 (binary) and 0.001 (vanilla) |
| Pricing.BelowFloorExample | src/services/pricing/helpers.ts:69 | positive candidates below the floor are returned as they are |
| Pricing.MissingDigitalSpreadExample | src/services/pricing/helpers.ts:55-57 | a binary type with no digital spread and no forced spread raises the error |
| OptionsTable.SelectFold | src/UI/components/OptionsTable/Table.tsx:20-29 | the reduce over a prefix selects a quote with the strike and the maximum reference price, with no later quote of that strike at that maximum; none exactly when no quote has the strike |
| OptionsTable.BestForStrikeIsLastMaximum | src/UI/components/OptionsTable/Table.tsx:20-29 | the quote chosen for a strike has that strike, the maximum reference price among its quotes, and is the last with that maximum; none iff no quote has the strike |
| OptionsTable.LaterTieWins | src/UI/components/OptionsTable/Table.tsx:22-25 | of two quotes tied on reference price, the later one is chosen |
| OptionsTable.SelectPerStrike | src/UI/components/OptionsTable/Table.tsx:18-34 | the loop's `tempData` is the per-strike selection: the winners in strike order |
| OptionsTable.PerStrikeLength | src/UI/components/OptionsTable/Table.tsx:19-33 | there are at most as many entries as strikes |
| OptionsTable.PerStrikeAppend | src/UI/components/OptionsTable/Table.tsx:19-33 | strikes are handled independently and in order, so a repeated strike gives a repeated entry and a strike with no quote gives none |
| OptionsTable.PerStrikeSingle | src/UI/components/OptionsTable/Table.tsx:31-33 | a single strike contributes its winner, or nothing |
| OptionsTable.PerStrikeEntriesAreBest | src/UI/components/OptionsTable/Table.tsx:19-33 | every entry is a quote from the data whose strike is among the strikes, with the highest reference price for its strike |
| OptionsTable.PriceListRequest | src/UI/components/OptionsTable/Table.tsx:36-45 | one request per selected quote, in order, carrying its id, payoff, strike and formatted expiry |
| OptionsTable.FindContract | src/UI/components/OptionsTable/Table.tsx:49 | `find`: the first entry with the contract id, or none exactly when no entry has it |
| OptionsTable.OrZero | src/UI/components/OptionsTable/Table.tsx:54-55 | a missing best bid or ask is shown as 0 |
| OptionsTable.ShowingList | src/UI/components/OptionsTable/Table.tsx:48-58 | one display row per selected quote, same length and order |
| OptionsTable.ShowingRowReferencePrice | src/UI/components/OptionsTable/Table.tsx:49-56 | the displayed reference price is that of the first price-list entry with the contract id, or 0 when there is none |
| OptionsTable.Table.constructor | src/UI/components/OptionsTable/Table.tsx:14 | the table starts with no rows |
| OptionsTable.Table.OnQuotesChanged | src/UI/components/OptionsTable/Table.tsx:16-62 | with no quotes, or when the price-list request is rejected (it has no handler), the rows are left unchanged; otherwise they become the display list of the per-strike selection |
| FundLockRow.ReleaseInstant | src/UI/components/TableFundLock/SIngleRow.tsx:28-83 | the release instant is 180 minutes, in milliseconds, after the deposit timestamp given in seconds |
| FundLockRow.MinutesAndSeconds | src/UI/components/TableFundLock/SIngleRow.tsx:84-85 | for a positive time left, the seconds lie in 0..59 and minutes·60 + seconds is the whole number of seconds left |
| FundLockRow.CountdownLabel | src/UI/components/TableFundLock/SIngleRow.tsx:84-93 | the label starts with "Estimated time until release " and ends in ":ss", two digits after the colon |
| FundLockRow.CountdownLabelReadsBack | src/UI/components/TableFundLock/SIngleRow.tsx:92-93 | the label is the prefix plus mm:ss: minutes padded to at least 2 digits, seconds exactly 2, and together they read back as the seconds left |
| FundLockRow.CountdownLabelExample | src/UI/components/TableFundLock/SIngleRow.tsx:84-93 | 2 h 5 min 7 s before release the label reads "125:07" |
| FundLockRow.ReleaseCountdown.constructor | src/UI/components/TableFundLock/SIngleRow.tsx:38-80 | the label starts empty, release unavailable, interval running |
| FundLockRow.ReleaseCountdown.Tick | src/UI/components/TableFundLock/SIngleRow.tsx:80-94 | at or after the release instant: the "00:00" label, release available, interval cleared; before it: the countdown label; a cleared interval changes nothing; release never becomes unavailable again |
| FundLockRow.ReleaseCountdown.Unmount | src/UI/components/TableFundLock/SIngleRow.tsx:96-98 | the cleanup clears the interval |
| FundLockRow.ActivityLabel | src/UI/components/TableFundLock/SIngleRow.tsx:107 | "release" in any letter case is shown as "Withdraw"; any other value verbatim |
| FundLockRow.ActivityLabelExamples | src/UI/components/TableFundLock/SIngleRow.tsx:107 | "Release" and "RELEASE" become "Withdraw"; "Deposit" and a missing value are kept |
| FundLockRow.ReleaseInfoCell | src/UI/components/TableFundLock/SIngleRow.tsx:117-129 | a "Withdraw" row shows the countdown until release is available, then "ready"; "Released" shows exactly for a non-"Withdraw" value equal to "release" ignoring case; the cell is empty exactly for every other value, so no countdown shows there |
| FundLockRow.ReleaseButtonOf | src/UI/components/TableFundLock/SIngleRow.tsx:137-141 | the button exists iff the row is "Withdraw", and is disabled iff release is not yet available |
| FundLockRow.ReleaseTutorialOpen | src/UI/components/TableFundLock/SIngleRow.tsx:131-133 | the release tutorial popover opens only on the release step for a "Withdraw" row, so only over a Release button that exists |
| Analytics.BuildRow | src/pages/analytics/useData.tsx:36-48 | the `forEach` builds the row: formatted date, the sum of the values, and one field per formatted expiry |
| Analytics.Transform | src/pages/analytics/useData.tsx:33-52 | no input gives no rows; otherwise there is one row per day, in key order |
| Analytics.TransformTrades | src/pages/analytics/useData.tsx:33-52 | `transformTrades`: the rows of the trade volumes |
| Analytics.TransformDailyVolume | src/pages/analytics/useData.tsx:54-72 | `transformDailyVolume`: the same rows, reading `totalInNum` for the fields and the sum |
| Analytics.SumValuesAppend | src/pages/analytics/useData.tsx:40-45 | the volume is additive over the expiries, so every expiry is counted once |
| Analytics.ExpiryFieldsLookup | src/pages/analytics/useData.tsx:40-45 | a field exists iff some expiry formats to its key, and holds the value of the last such expiry |
| Analytics.EmptyDay | src/pages/analytics/useData.tsx:37-47 | a day with no expiries has volume 0 and no fields |
| Analytics.CollidingExpiries | src/pages/analytics/useData.tsx:41-44 | two expiries with the same formatted key: the field keeps the later value and the volume counts both |
| ManageFunds.Failures | src/UI/components/CollateralPanel/ManageFundsModal.tsx:127-133 | the number of failing attempts is at most the number of attempts, and equals it iff every attempt fails |
| ManageFunds.RetryAction | src/UI/components/CollateralPanel/ManageFundsModal.tsx:123-136 | the action runs exactly `retries` times (no early exit on success); it raises iff the last attempt fails; each earlier failure is followed by one wait of `waitTime` |
| ManageFunds.AllSucceedNoWaits | src/UI/components/CollateralPanel/ManageFundsModal.tsx:127-130 | when every attempt succeeds there is no wait |
| ManageFunds.FailuresMonotone | src/UI/components/CollateralPanel/ManageFundsModal.tsx:124-133 | a longer run has at least the failures of a shorter one and at most one more per extra attempt |
| ManageFunds.SubmitDispatch | src/UI/components/CollateralPanel/ManageFundsModal.tsx:311-321 | switch networks iff the wallet chain differs from the selected one; otherwise deposit iff the tab is deposit, else withdraw |
| ManageFunds.ModalFooterText | src/UI/components/CollateralPanel/ManageFundsModal.tsx:323-334 | the loader iff in progress, then "Switch network", then "Deposit Cross-Chain", then "Deposit"/"Withdraw": the first match wins |
| ManageFunds.FooterAgreesWithSubmit | src/UI/components/CollateralPanel/ManageFundsModal.tsx:311-334 | "Switch network" shows iff a click only switches; "Deposit" and "Withdraw" name the handler run; "Deposit Cross-Chain" on the withdraw tab withdraws |
| ManageFunds.InitialDepositStep | src/UI/components/CollateralPanel/ManageFundsModal.tsx:417-425 | the chooser: no step with locked funds, else the balance path with a wallet balance, else the no-balance step of WETH or USDC |
| ManageFunds.TabEffect | src/UI/components/CollateralPanel/ManageFundsModal.tsx:412-433 | the tab effect: without `updateStep` the step is unchanged, and on the deposit tab with the tutorial disabled too; off the deposit tab the step is kept or cleared, and a withdrawal step is kept; it never introduces a withdrawal step |
| ManageFunds.StepEffect | src/UI/components/CollateralPanel/ManageFundsModal.tsx:435-462 | the step and balance effect: no tab or no `updateStep` leaves the step unchanged; a withdrawal step always survives; no withdrawal step is introduced; on the withdraw tab the step is kept or cleared |
| ManageFunds.DepositTabChoosesDepositStep | src/UI/components/CollateralPanel/ManageFundsModal.tsx:412-426 | opening the deposit tab with the tutorial on applies the chooser, so the step is a deposit step or none, never a withdrawal step |
| ManageFunds.WithdrawalStepSurvives | src/UI/components/CollateralPanel/ManageFundsModal.tsx:427-461 | off the deposit tab both effects keep a withdrawal step and clear every other step |
| ManageFunds.StepEffectSettles | src/UI/components/CollateralPanel/ManageFundsModal.tsx:435-462 | the step effect run again on its own result changes nothing, so it settles after one update |
| ManageFunds.StepEffectRechoosesLikeTabEffect | src/UI/components/CollateralPanel/ManageFundsModal.tsx:439-448 | on the no-balance USDC step a token change re-runs the chooser used on opening the tab |
| ManageFunds.SubmitDisabled | src/UI/components/CollateralPanel/ManageFundsModal.tsx:718 | the submit button is enabled only with a non-empty amount |
| ManageFunds.AllAmount | src/UI/components/CollateralPanel/ManageFundsModal.tsx:668-676 | "All" gives the wallet balance on the deposit tab and the fund-lock value otherwise |
| ManageFunds.OneRecordPerSuccess | src/UI/components/CollateralPanel/ManageFundsModal.tsx:218-238 | each successful status fetch, and only those, records one transaction and shows one toast |
| ManageFunds.ManageFundsModal.constructor | src/UI/components/CollateralPanel/ManageFundsModal.tsx:84-100 | the form starts empty, not in progress, on the active chain; which optional parent setters exist is fixed for the modal's life |
| ManageFunds.ManageFundsModal.HandleCloseModal | src/UI/components/CollateralPanel/ManageFundsModal.tsx:336-349 | both amounts become "", the route and currencies none, the chain the active chain, the tab and (with `updateStep`) the step none; submit is then disabled |
| ManageFunds.ManageFundsModal.SelectAll | src/UI/components/CollateralPanel/ManageFundsModal.tsx:663-679 | on the active chain, with a currency, the amount becomes "All"'s amount; otherwise it is unchanged; no other field is touched |
| ManageFunds.ManageFundsModal.HandleFetchingBalance | src/UI/components/CollateralPanel/ManageFundsModal.tsx:138-142 | with the optional setter, the parent receives the status and the selected currency; without it nothing happens |
| ManageFunds.ManageFundsModal.SwitchNetworkAction | src/UI/components/CollateralPanel/ManageFundsModal.tsx:157-175 | a failed switch shows an error toast with the wallet's message; every form field is left as it was, and the modal is not in progress |
| ManageFunds.ManageFundsModal.Failed | src/UI/components/CollateralPanel/ManageFundsModal.tsx:242-305 | the catch passes `true` and the currency to the parent's fetching setter when there is one, and appends the error toast; nothing else changes |
| ManageFunds.ManageFundsModal.Deposit | src/UI/components/CollateralPanel/ManageFundsModal.tsx:177-258 | no currency: nothing changes. Same chain: the success toast, fetching off (when the parent has the setter) and closed; or the error toast with every form field kept. Cross-chain: the records and toasts of the successful fetches, then closed unless the last fetch failed, which shows the error toast and keeps the form. The store changes only in its transaction list, stored copy and storage events, and only through the records; the dashboard tab is kept |
| ManageFunds.ManageFundsModal.DepositOnActiveChain | src/UI/components/CollateralPanel/ManageFundsModal.tsx:199-215 | the same-chain deposit: on success the success toast, fetching off, the modal closed; on failure the error toast, fetching on, and every form field (tab, amounts, chain, currencies, route, step) kept |
| ManageFunds.ManageFundsModal.DepositCrossChain | src/UI/components/CollateralPanel/ManageFundsModal.tsx:216-258 | without a wallet client or a route nothing is shown or recorded and the form is kept; a failed cross-chain deposit shows the error toast and keeps the form; otherwise one record and toast per successful status fetch, then closed unless the last fetch failed, which keeps the form. The store's other fields are outside its frame |
| ManageFunds.ManageFundsModal.RecordStatusFetches | src/UI/components/CollateralPanel/ManageFundsModal.tsx:221-238 | each attempt that fetched a status appends one transaction to the store, the stored copy kept equal, and one success toast, in attempt order; only the store's transaction list, stored copy and storage events may change |
| ManageFunds.ManageFundsModal.Withdraw | src/UI/components/CollateralPanel/ManageFundsModal.tsx:260-309 | success: fetching off (when the parent has the setter), the "release in 180 Mins" toast, the history step, and the history tab when the parent passes `setDashboardTab`; the modal stays open; failure: the error toast and fetching on |
| ManageFunds.ManageFundsModal.HandleSubmit | src/UI/components/CollateralPanel/ManageFundsModal.tsx:311-321 | a different wallet chain gives exactly the network switch's outcome; otherwise the deposit tab gives exactly the deposit's outcome, and any other tab the withdrawal's. Switching and withdrawing leave the store's transaction list, stored copy and storage events as they were, and no other store field is in its frame |
| SubmitButton.Premium | src/UI/components/OrderSummary/SubmitButton.tsx:34 | the premium is absent exactly when there is no summary, no net price or an empty one |
| SubmitButton.IsValidTotalPremium | src/UI/components/OrderSummary/SubmitButton.tsx:36 | false without a premium; otherwise true iff the total premium is not "0.00" |
| SubmitButton.IsValidConfiguration | src/UI/components/OrderSummary/SubmitButton.tsx:37-39 | the configuration is never valid without an order summary |
| SubmitButton.IsValid | src/UI/components/OrderSummary/SubmitButton.tsx:43-58 | always valid without profitable-only; with it: valid without a premium, invalid with a missing fee (NaN), else valid iff the fee's magnitude is below the total premium |
| SubmitButton.IsDisabled | src/UI/components/OrderSummary/SubmitButton.tsx:100 | disabled iff the caller disables it, the user is location-restricted, the premium is invalid or the order is invalid |
| SubmitButton.NeedsDeposit | src/UI/components/OrderSummary/SubmitButton.tsx:110 | enough funds, or no summary, never asks for a deposit |
| SubmitButton.HandleSubmitToAuction | src/UI/components/OrderSummary/SubmitButton.tsx:60-67 | selects USDC for deposit iff funds are short and the configuration is valid; otherwise submits |
| SubmitButton.RenderWarning | src/UI/components/OrderSummary/SubmitButton.tsx:84-98 | no summary: no warning; then "Check Configuration", then "Insufficient Balance", else none |
| SubmitButton.Render | src/UI/components/OrderSummary/SubmitButton.tsx:69-119 | not connected: Connect Wallet only; otherwise the Deposit button iff a deposit is needed, else Submit with the disable rule, and the warning |
| SubmitButton.ButtonMatchesHandler | src/UI/components/OrderSummary/SubmitButton.tsx:60-118 | the Deposit button is shown iff a click selects USDC, the Submit button iff a click submits |
| SubmitButton.WarningMatchesButton | src/UI/components/OrderSummary/SubmitButton.tsx:84-118 | "Insufficient Balance" shows iff the Deposit button does; "Check Configuration" only beside Submit |
| SubmitButton.UnprofitableOrderDisabled | src/UI/components/OrderSummary/SubmitButton.tsx:46-54 | a 1.80 fee against a 0.80 total premium makes a profitable-only order invalid and disabled |
| UserDisplay.GetUserDisplayName | src/utils/user.ts:4-13 | "You" iff both addresses are non-empty and equal ignoring case; otherwise the truncated name for an address, else the name |
| UserDisplay.DisplayNameSymmetric | src/utils/user.ts:9 | swapping the two addresses never changes the result |
| UserDisplay.MissingAddressShowsName | src/utils/user.ts:9-12 | a missing or empty address always falls through to the name rule |
| UserDisplay.CaseInsensitiveMatch | src/utils/user.ts:9-11 | an address and its lower-cased form are the same wallet, whatever the display name |
| UserDisplay.DifferentWalletShowsName | src/utils/user.ts:9-12 | any two addresses whose lower-cased forms differ, in a character or in length, show the name |
| UserDisplay.DifferenceAfterLowerCasing | src/utils/user.ts:9-12 | a character that differs ignoring case, or a different length, makes the lower-cased addresses differ |
| ClosePosition.CloseLeg | src/UI/components/TableOrder/Positions/ClosePositionModal.tsx:37-47 | size = \|quantity\| × percent/100; side SELL iff quantity < 0; the spot contract for NEXT_AUCTION, else the contract at the strike; none exactly when that contract is missing |
| ClosePosition.CloseLegSizes | src/UI/components/TableOrder/Positions/ClosePositionModal.tsx:23-37 | the three suggested options close a quarter, a half and all of the position |
| ClosePosition.CloseLegWithinPosition | src/UI/components/TableOrder/Positions/ClosePositionModal.tsx:37 | for 0..100 per cent the size lies between 0 and the position's size |
| ClosePosition.OppositePositionOppositeSide | src/UI/components/TableOrder/Positions/ClosePositionModal.tsx:40-45 | a long and the opposite short give the same contract and size and opposite sides |
| ClosePosition.StrategiesFormatted | src/UI/components/TableOrder/Positions/ClosePositionModal.tsx:84-94 | at most one strategy row, present exactly when there are both a summary and a position, showing a leg of the summary's order |
| ClosePosition.StrategiesShowOnlyLeg | src/UI/components/TableOrder/Positions/ClosePositionModal.tsx:84-94 | for a one-leg order the table is exactly that leg with the position's average price, product and strike |
| ClosePosition.ClosePositionModal.constructor | src/UI/components/TableOrder/Positions/ClosePositionModal.tsx:26-29 | the sell value starts at "100", with no summary and no submission |
| ClosePosition.ClosePositionModal.Strategies | src/UI/components/TableOrder/Positions/ClosePositionModal.tsx:84-94 | the modal's strategy table has at most one row |
| ClosePosition.ClosePositionModal.PrepareOrder | src/UI/components/TableOrder/Positions/ClosePositionModal.tsx:34-79 | no row or no sell value, or a missing contract: nothing changes; otherwise a one-leg order, and on a successful estimate the summary with lock and fees and the "Position Builder" submission; on a failed one the summary with none and the submission untouched; either way the strategy table shows exactly the close leg |
| ClosePosition.ClosePositionModal.SubmitOrder | src/UI/components/TableOrder/Positions/ClosePositionModal.tsx:97-112 | without a submission nothing happens: the submission stays absent, and no toast is shown or position set; otherwise the confirmation or error toast, the submission cleared and the modal closed, whatever the outcome, with the toast at bottom-right |
| AppShell.OrderToast | src/pages/_app.tsx:45-99 | title and type from the maps; the rejection reason when non-empty, else the status message; the net price carried; "view order" iff NEW or FILLED |
| AppShell.StatusType | src/pages/_app.tsx:45-50 | `STATUS_MAP`: "success" exactly for NEW and FILLED; every defined type is success, error or info |
| AppShell.StatusTitle | src/pages/_app.tsx:52-57 | `TITLE_MAP`: every title starts with "Order " |
| AppShell.StatusMessage | src/pages/_app.tsx:59-64 | `MESSAGE_MAP`: every message is non-empty |
| AppShell.MapsCoverKnownStatuses | src/pages/_app.tsx:45-64 | the three maps are defined for exactly the four statuses |
| AppShell.KnownStatusToasts | src/pages/_app.tsx:45-93 | NEW and FILLED are success toasts with the link, REJECTED is an error, CANCEL_REJECTED is info, with their titles and messages |
| AppShell.RejectionReasonWins | src/pages/_app.tsx:90 | a non-empty rejection reason replaces the default message |
| AppShell.ContentAllowedAfter | src/pages/_app.tsx:76-82 | on a points path with points disabled, content is allowed iff the `allowed` parameter is present; otherwise unchanged |
| AppShell.PointsGatingExamples | src/pages/_app.tsx:76-82 | a points page is hidden without the parameter; other pages, and an enabled points flag, leave the value unchanged |
| AppShell.RecheckDelay | src/pages/_app.tsx:219-225 | the delay is the time left when positive, else 5000 ms, so always positive |
| AppShell.RenderedPage | src/pages/_app.tsx:139-242 | maintenance renders only the Plug; otherwise the page iff content is allowed |
| AppShell.Shell.constructor | src/pages/_app.tsx:74 | content starts allowed |
| AppShell.Shell.OnRouteChanged | src/pages/_app.tsx:76-82 | the routing effect sets the gating value |
| AppShell.Shell.OnNewToast | src/pages/_app.tsx:84-99 | a new socket order appends its toast at bottom-right; none changes neither the list nor the position |
| SdkStore.LocationRestriction | src/UI/lib/zustand/slices/ithacaSDKSlice.ts:161-191 | never restricted with the flag off; otherwise restricted iff the status is not 200; a thrown check keeps the old value |
| SdkStore.NextRetry | src/UI/lib/zustand/slices/ithacaSDKSlice.ts:262-269 | a retry is scheduled iff the call failed and the count is below the maximum, with count + 1 ≤ maximum |
| SdkStore.InitAttemptsBounded | src/UI/lib/zustand/slices/ithacaSDKSlice.ts:201-269 | from count c at most maxRetries − c retries follow the first call |
| SdkStore.InitAttemptsAllFail | src/UI/lib/zustand/slices/ithacaSDKSlice.ts:262-269 | when every call fails the bound is reached exactly |
| SdkStore.SuccessStopsRetrying | src/UI/lib/zustand/slices/ithacaSDKSlice.ts:239-254 | a successful call schedules nothing |
| SdkStore.FirstExpiry | src/UI/lib/zustand/slices/ithacaSDKSlice.ts:250 | the current expiry is the first of the list, undefined for an empty list |
| SdkStore.IthacaStore.constructor | src/UI/lib/zustand/slices/ithacaSDKSlice.ts:12-66 | the initial state: default quoting params (5.25, 0.05, 1.05), loading, no restriction or maintenance, empty lists, no stored copy |
| SdkStore.IthacaStore.OnMessage | src/UI/lib/zustand/slices/ithacaSDKSlice.ts:94-100 | the open-order count and `newToast` come from the payload, which is appended to the notifications; no other field changes |
| SdkStore.Deliver | src/UI/lib/zustand/slices/ithacaSDKSlice.ts:94-100 | delivering messages one by one keeps the old notifications as a prefix and adds one entry per message |
| SdkStore.IthacaStore.AddCrossChainTransaction | src/UI/lib/zustand/slices/ithacaSDKSlice.ts:351-357 | exactly one transaction is appended, the stored copy equals the new list and one storage event is dispatched; no other field changes |
| SdkStore.IthacaStore.UpdateCrossChainTxnStatus | src/UI/lib/zustand/slices/ithacaSDKSlice.ts:358-362 | the list is replaced wholesale, the stored copy equals it and one storage event is dispatched; no other field changes |
| SdkStore.IthacaStore.CheckSystemInfo | src/UI/lib/zustand/slices/ithacaSDKSlice.ts:192-200 | maintenance is on iff the system-info request fails; no other field changes |
| SdkStore.IthacaStore.CheckLocationRestriction | src/UI/lib/zustand/slices/ithacaSDKSlice.ts:161-191 | the restriction becomes the location rule's value; no other field changes |
| SdkStore.IthacaStore.Disconnect | src/UI/lib/zustand/slices/ithacaSDKSlice.ts:143-160 | after the logout both stored keys are removed; after the configuration fetch the SDK is read-only and the user is unauthenticated; a rejection keeps what is not yet done, and no other field changes |
| SdkStore.IthacaStore.InitIthacaProtocol | src/UI/lib/zustand/slices/ithacaSDKSlice.ts:201-271 | success stores the fetched data (keeping the old quoting params and spot contract when missing), clears maintenance and loading, sets the first expiry; a failed fetch sets the read-only SDK, turns maintenance on, schedules the retry the rule allows and keeps every fetched field, the location flag and loading; a failed configuration fetch changes nothing, so the app stays loading with no maintenance flag and no retry; the notifications, the authentication, the session and the transaction list never change |
| SdkStore.NotificationsAppendOnly | src/UI/lib/zustand/slices/ithacaSDKSlice.ts:94-100 | after any run of messages the notifications are the old list followed by exactly those messages |
| Toasts.BasicToast | src/UI/hooks/useToast.tsx:14-36 | a helper toast carries its id, title, message and type, with no net price and no link |
| Toasts.SuccessToast | src/UI/hooks/useToast.tsx:14-24 | the success helper's toast has type "info" with the given id, title and message |
| Toasts.ErrorToast | src/UI/hooks/useToast.tsx:26-36 | the error helper's toast has type "error" with the given id, title and message |
| Toasts.OrderConfirmationToast | src/UI/hooks/useToast.tsx:38-43 | the confirmation toast is "info", titled "Transaction Confirmed" |
| Toasts.OrderErrorToast | src/UI/hooks/useToast.tsx:45-55 | the order-error toast is "error", titled "Failed to Send Order" |
| Toasts.HelperToastTypes | src/UI/hooks/useToast.tsx:14-55 | success and order-confirmation toasts are "info", not "success"; error and order-error toasts are "error" |
| Toasts.ToastStore.constructor | src/UI/hooks/useToast.tsx:6-7 | the list starts empty at bottom-right |
| Toasts.ToastStore.ShowToast | src/UI/hooks/useToast.tsx:9-12 | the toast is appended at the end, earlier entries kept, and the position set |
| Toasts.ToastStore.ShowSuccessToast | src/UI/hooks/useToast.tsx:14-24 | appends an "info" toast at bottom-right |
| Toasts.ToastStore.ShowErrorToast | src/UI/hooks/useToast.tsx:26-36 | appends an "error" toast at bottom-right |
| Toasts.ToastStore.ShowOrderConfirmationToast | src/UI/hooks/useToast.tsx:38-43 | appends the fixed confirmation toast, type "info" |
| Toasts.ToastStore.ShowOrderErrorToast | src/UI/hooks/useToast.tsx:45-55 | appends an "error" toast titled "Failed to Send Order" |
| AccessManagement.SelectApiKey | src/UI/components/AccountAccessManagement/index.tsx:27-33 | a missing or empty key gives no row; any other key a row of type "API Key" |
| AccessManagement.SelectWallets | src/UI/components/AccountAccessManagement/index.tsx:40-44 | one "Wallet Delegate" row per address, same length and order |
| AccessManagement.TableFinalData | src/UI/components/AccountAccessManagement/index.tsx:47-53 | the wallets (none when absent), then the key when present: length n or n + 1, key last |
| AccessManagement.TableRows | src/UI/components/AccountAccessManagement/index.tsx:27-53 | the delegates in order, then exactly one "API Key" row when a key is linked |
| AccessManagement.EmptyStateExactlyWhenNothingLinked | src/UI/components/AccountAccessManagement/index.tsx:129-133 | the empty state shows iff there are no wallets and no key |
| AccessManagement.RevocationFor | src/UI/components/AccountAccessManagement/index.tsx:73-79 | an "API Key" row unlinks the RSA key and every other row unlinks its address |
| AccessManagement.Revocations | src/UI/components/AccountAccessManagement/index.tsx:81-85 | one unlink per row, in table order |
| AccessManagement.FirstAbort | src/UI/components/AccountAccessManagement/index.tsx:68-85 | the first row whose unlink throws out of the loop, if any |
| AccessManagement.RevokeAllReachesEveryRow | src/UI/components/AccountAccessManagement/index.tsx:81-85 | when no unlink fails, every row is revoked exactly once, in order |
| AccessManagement.RevokeAllStopsAtFailure | src/UI/components/AccountAccessManagement/index.tsx:68-85 | a failing wallet unlink stops the run: no later row is revoked |
| AccessManagement.FirstAbortIsFirst | src/UI/components/AccountAccessManagement/index.tsx:81-85 | the first failing wallet row is the one where the loop stops |
| AccessManagement.KeyToasts | src/UI/components/AccountAccessManagement/index.tsx:55-85 | the toasts of a run are at most one per row reached |
| AccessManagement.RevokedKeysStep | src/UI/components/AccountAccessManagement/index.tsx:81-85 | one more row reached adds that row to the successful key unlinks exactly when it is a key row whose unlink succeeds |
| AccessManagement.KeyToastsCountRevokedKeys | src/UI/components/AccountAccessManagement/index.tsx:55-85 | there is exactly one key toast per successful key unlink among the rows that ran |
| AccessManagement.AccessTable.constructor | src/UI/components/AccountAccessManagement/index.tsx:55-85 | no unlink made yet |
| AccessManagement.AccessTable.HandleRevoke | src/UI/components/AccountAccessManagement/index.tsx:55-79 | one unlink for the row; a key unlink's success shows its toast and its failure is swallowed; a failed wallet unlink propagates |
| AccessManagement.AccessTable.RevokeAll | src/UI/components/AccountAccessManagement/index.tsx:81-85 | the rows' unlinks in order up to and including the first that throws, with the key toasts of that prefix; it throws iff some row's does |
| Text.ToLower | src/UI/components/TableFundLock/SIngleRow.tsx:107 | `toLowerCase` keeps the length and lower-cases each ASCII letter |
| Text.ToLowerIdempotent | src/utils/user.ts:9 | lower-casing twice is lower-casing once |
| Text.Decimal | src/UI/components/TableFundLock/SIngleRow.tsx:92 | `String(n)`: at least one digit, all digits, one digit exactly below 10 |
| Text.ParseDecimalOfDecimal | src/UI/components/TableFundLock/SIngleRow.tsx:92 | `String(n)` reads back as n |
| Text.PadStart | src/UI/components/TableFundLock/SIngleRow.tsx:92 | `padStart`: the width or the original length, the original at the end, fill before it |
| Text.TwoDigitsReadsBack | src/UI/components/TableFundLock/SIngleRow.tsx:92 | the zero-padded number still reads back as the number |

## Left out

- SDK, wallet and network calls are not modelled; each call's outcome (success or failure) is a parameter. This covers order estimation and submission, deposit, withdraw, the cross-chain deposit and its status, the unlinks, logout, the system-info, KYC and configuration fetches, and the five initialisation fetches.
- Timers are not modelled: intervals, timeouts, the debounce and the heartbeat. The countdown is one `Tick` per interval run at a given clock. A retry wait is recorded as its length. A scheduled protocol re-initialisation is recorded as its retry count. The expiry re-check is modelled only as its delay.
- `checkExpiry` and `fetchContractList` are not modelled, apart from the re-check delay. The 60-second location and system-info interval is also left out.
- Local storage is two fields of the store. A "storage" event is a counter. Loading the session at login is not part of this model.
- Nothing rendered is modelled beyond what is decided: the toast container, the step alerts shown with `toast()`, icons and styles.
- mixPanel tracking and console logging are not modelled, because they have no effect on state.
- JavaScript float rounding is not modelled: prices, sizes and volumes are exact reals.
- `Number(...)` and template-string renderings of the collateral summary are inputs (`Collateral`).
- `Object.keys` order is taken as the order of the input key/value sequences, so JavaScript's numeric-key ordering is not modelled.
- Text.ToLower: lower-cases ASCII letters only, because Unicode case mapping is not modelled.
- ClosePosition.CloseLeg: the size is kept as a real rather than the string `${number}`.
- ManageFunds.ManageFundsModal.Withdraw: `parseUnits` throwing, before the `try`, on a malformed amount is not modelled.
- The release click (`handleReleaseClick`) in the fund-lock row is not modelled, because it only calls the SDK and toggles a loader.
- Login, `setIthacaSDK` and the session-restoring part of the store are not modelled; only `initIthacaProtocol`'s use of them is.
- SdkStore.IthacaStore.InitIthacaProtocol: the success `set` also writes `systemInfo`, `currencyPrecision`, `contractList`, `unFilteredContractList`, `referencePrices` and `spotPrices` (src/UI/lib/zustand/slices/ithacaSDKSlice.ts:245-252). These are not store fields here, because no modelled operation reads them.
- Cross-chain route estimation and the source-chain amount field are not modelled: `estimateCrossChainTxn`, its 30-second refresh and the source-chain "All" button.
- `handleChangeModalTab` is not modelled. It only sets the tab and the selected chain.
- The query refetches after a revocation are not modelled. The API-key modal's own revoke call is not modelled either.
- ManageFunds.ManageFundsModal.Deposit: the retry outcome comes from `RetryAction`. The per-attempt effects are applied afterwards in attempt order, so the interleaving of waits and effects is not modelled. `Date.now()` is a per-attempt clock. One toast id serves all the toasts of a handler.
- ManageFunds.ManageFundsModal.HandleCloseModal: the tab is cleared on every close. The source clears it through the optional `setModalTab`; at its one call site (src/UI/components/OrderSummary/SubmitButton.tsx:104-109) the parent clears it instead, by deriving the tab from the currency that the close clears.
- ManageFunds.ManageFundsModal.SwitchNetworkAction: the new chain of a successful switch belongs to the wallet and is not recorded.
- React's batching of state updates and stale closures are not modelled. Each `showToast` appends to the current list.
