# The controller program, modelled and verified

A controller on Solana holds reserves of tokens. Relayers with the right permissions move them: to fixed
recipients, over a LayerZero bridge, into and out of a Kamino lending market, and through atomic swaps in which
tokens are borrowed and repaid within one transaction. Every movement is held under a leaky-bucket rate limit,
recorded as an accounting event, and gated by the controller's status.

The model is a state machine over the program's accounts, the token ledger, the clock and the event log, in
imperative processors and in functions they are proved against.

| file | what it holds |
|---|---|
| `Words.dfy`, `Division.dfy` | machine integers; floor division for the solver |
| `RateLimit.dfy` | the bucket: closed form, path independence, bounds over any run of operations |
| `Pricing.dfy` | the swap price, the slippage check, the inverted oracle |
| `Klend.dfy` | Kamino's fixed-point share conversion |
| `Tlv.dfy` | the two extension scanners and the mint check |
| `Accounts.dfy`, `Introspection.dfy` | accounts, ledger, event log; what an instruction sees of its transaction |
| `Handlers.dfy` | for each instruction, when it succeeds (`...Ok`) and what it leaves (`...Post`) |
| `State.dfy`, `Processors.dfy` | the accounts as objects and the processors that work on them, proved against `Handlers` |
| `Machine.dfy` | dispatch, and what each kind of call may change and demands |
| `Rights.dfy`, `Acceptance.dfy` | the access table, and exactly when each kind of call succeeds |
| `Movements.dfy`, `Administration.dfy` | what each kind of call leaves, on the ledger, the accounts and the log, in exact arithmetic |
| `Transactions.dfy`, `Runs.dfy`, `History.dfy` | committed transactions, runs of calls, and everything reachable from the empty world |
| `Swap.dfy`, `SwapOutcome.dfy`, `SwapTerms.dfy` | swap atomicity; what a committed swap did to vaults, caches and limits; at what price and with what left to the payer |
| `Bridge.dfy` | LayerZero pushes and their one send |
| `Bookkeeping.dfy`, `Replay.dfy`, `Lending.dfy`, `Caches.dfy` | the event log against cached balances, lending balances and vaults |
| `Setup.dfy`, `ExcessRepayment.dfy` | a history from the empty world, in full, after which the log alone falls short of the balance |
| `Limits.dfy` | the outflow bounds over runs of the whole program |
| `Governance.dfy` | permissions and freezing, over runs |

## How the outside is modelled

A transaction is a list of top-level instructions and a trace of steps. Each top-level instruction of this program
runs once, as itself. While another program's instruction runs, it may invoke this program any number of times with
any instruction, and outsiders may set any token balance to anything, as long as the reserves' vaults, which belong
to the controller's own authority, stay open and keep their mints. A step that fails fails the transaction, so a
committed one is a trace in which every step succeeded.

What a CPI does enters as the `Environment` of a call: how much of a transfer arrives after fees, the ledger after a
Kamino deposit, withdrawal or harvest, the lending position before and after, what the lending market's accounts say
(a closed, full or stale account, derived addresses, which accounts the farms program owns), and a price feed's value
and slot. The lending protocol is not trusted: where a property needs it to behave, the theorem says exactly how and
that it is needed. The clock is shared by a transaction and never goes back or below zero. Addresses are opaque; that
an address derived from seeds determines them appears as the guards on initialization (one reserve for a controller
and mint, one permission for a controller and authority, one integration for a controller and configuration hash).

Release builds of the program do not check overflow, so plain additions on Kamino's `Fraction` and its conversion to
64 bits wrap; where the source uses checked operations and unwraps, the model fails the instruction.

## Where the code and its documentation differ

The model follows the code.

- `program/src/enums/controller_status.rs:7-15` says that everything but the change to Active reverts while Frozen.
  Refreshing an oracle and resetting a bridge push still run; `Governance.FreezeHolds` says what that can change.
- The same lines say that only pushes and pulls revert under PushPullFrozen, and that every instruction reverts under
  AtomicSwapLock. A swap's borrow also needs Active; and under the lock an oracle can be refreshed and a holder of
  the freeze rights can change the status, after which the repay, and so the transaction, fails.
- `program/src/processor/initialize_controller.rs:27-29` calls the initialization of a controller permissionless. It
  needs the deployer multisig.
- `program/src/math.rs:4-5` offers a ceiling for all integers. It is one for positive divisors, or when nothing is
  left over (`Pricing.CeilDivIsCeiling`); the program divides by nothing else unless an oracle's value is negative.

## Model

| member | source | states |
|---|---|---|
| `Swap.SwapAtomicity` | program/src/integrations/atomic_swap/atomic_swap_borrow.rs:71-122 | from a world with no lock and no loan, every committed transaction, whatever it invokes directly or through other programs, ends in such a world, borrows at most once, and a borrow is followed in the very last step by the only repay, of the same integration |
| `Swap.SwapAt` | program/src/integrations/atomic_swap/atomic_swap_repay.rs:64-70 | between the borrow and the repay the controller stays locked and its reserves and integrations are exactly as the borrow left them; no other repay succeeds, in a transaction that commits |
| `Swap.BorrowShape` | program/src/integrations/atomic_swap/atomic_swap_borrow.rs:84-100 | a borrow that succeeds is a top-level instruction, no other top-level instruction of the program runs before the last, and the last is the repay of the same integration, paid from the two accounts the borrow paid out to, neither the vault of its token |
| `Swap.OneBorrow` | program/src/integrations/atomic_swap/atomic_swap_borrow.rs:96-107 | two borrows in one committed transaction are the same step |
| `Swap.LockHolds` | program/src/state/controller.rs:176-178 | while a controller is locked no call changes its reserves or integrations unless it also takes the lock away |
| `Swap.UnlockedForGood` | program/src/integrations/atomic_swap/atomic_swap_borrow.rs:291-294 | a lock that goes inside a swap never comes back, so the closing repay finds it gone |
| `Swap.RepayClosesBracket` | program/src/integrations/atomic_swap/atomic_swap_repay.rs:64-70 | a repay can only be of the locked controller, and repaying the open integration leaves no lock and no loan |
| `SwapOutcome.EverySwapCompletes` | program/src/integrations/atomic_swap/atomic_swap_repay.rs:92-222 | every committed swap, end to end: what left and reached both vaults, both cached balances, the three rate limits and the accepted price are those of one loan, its refund and its proceeds |
| `SwapOutcome.SwapValue` | program/src/integrations/atomic_swap/atomic_swap_repay.rs:136-209 | over a committed swap vault A loses nothing, or its loss and vault B's gain pass the exact rational price test against a fresh oracle of the controller, direct and inverted, transfer fees and partial refunds included |
| `SwapOutcome.SwapCachesAgree` | program/src/integrations/atomic_swap/atomic_swap_repay.rs:136-144 | after a repay, which never syncs, both reserves' cached balances equal their vaults |
| `SwapOutcome.SwapNetCost` | program/src/integrations/atomic_swap/atomic_swap_repay.rs:215-222 | with d of n borrowed tokens returned, d <= n, reserve A and the integration have spent exactly n - d of what they had at the borrow and the cap never bites; beyond n they are topped up to the cap at most |
| `SwapOutcome.SettleBalances` | program/src/integrations/atomic_swap/atomic_swap_repay.rs:147-196 | the two vaults change by exactly the two measured deltas, even when a payer account is a vault itself |
| `SwapOutcome.LegsJoin` | program/src/integrations/atomic_swap/atomic_swap_repay.rs:92-105 | the reserves a repay names are the borrow's own, and its balance check pins both vaults to what the borrow left |
| `SwapOutcome.StalePriceRefused` | program/src/integrations/atomic_swap/atomic_swap_repay.rs:196-201 | a repay against a price updated longer ago than the configuration allows, or against another controller's oracle, does not execute |
| `SwapTerms.SwapPriceFresh` | program/src/integrations/atomic_swap/atomic_swap_repay.rs:193-201 | the price of every committed swap is read in its last step from the integration's own oracle, which is the controller's and fresh |
| `SwapTerms.SwapLeavesPayer` | program/src/integrations/atomic_swap/atomic_swap_repay.rs:110-190 | the payer of every committed swap ends with no more of the token lent than before the borrow, and with just as much of the other |
| `History.EverySwapQuoted` | program/src/integrations/atomic_swap/initialize.rs:40-102 | in every reachable world each swap integration's oracle is its own controller's and quotes its pair in its direction, however feeds and authorities are replaced |
| `Introspection.VerifyRepayIxInTx` | program/src/integrations/atomic_swap/atomic_swap_borrow.rs:54-137 | the scan of sibling instructions accepts exactly the transactions whose shape is borrow, foreign instructions, repay of this integration from these payer accounts |
| `Introspection.VerifyLastIx` | program/src/integrations/atomic_swap/atomic_swap_borrow.rs:103-134 | accepts exactly a repay of this integration, paid from the borrow's recipients, which are not the vaults |
| `Processors.Bank.ProcessAtomicSwapBorrow` | program/src/integrations/atomic_swap/atomic_swap_borrow.rs:147-297 | succeeds exactly when every guard of the borrow holds, and then leaves the lock, the cached balances, both synced reserves, the outflow on both limits and the transfer |
| `Processors.Bank.ProcessAtomicSwapRepay` | program/src/integrations/atomic_swap/atomic_swap_repay.rs:43-255 | succeeds exactly when every guard of the repay holds, and then leaves the lock released, the swap state cleared, both reserves and the integration credited and the two events |
| `Processors.Bank.TakeRepayment` | program/src/integrations/atomic_swap/atomic_swap_repay.rs:110-196 | returns what is left of token A and all of token B gained, and measures what each vault received |
| `Processors.Bank.CheckOraclePrice` | program/src/integrations/atomic_swap/atomic_swap_repay.rs:198-209 | accepts exactly a fresh oracle of this controller whose price, inverted if configured, accepts the exchange |
| `State.Integration.ResetSwap` | program/src/integrations/atomic_swap/state.rs:24-30 | clears all five fields a borrow recorded |
| `Pricing.SwapPriceBounds` | program/src/integrations/atomic_swap/atomic_swap_repay.rs:261-291 | both division orders are lower bounds of the exact rational price: the usual one is its floor, the overflow fallback is short by less than prec/input + 1 |
| `Pricing.AcceptedIsFair` | program/src/integrations/atomic_swap/atomic_swap_repay.rs:293-331 | an accepted swap passes the exact rational slippage test |
| `Pricing.AcceptedIff` | program/src/integrations/atomic_swap/atomic_swap_repay.rs:261-331 | on every input: panics exactly when both sides moved and a product overflows; accepts exactly when nothing was spent, or a whole price lies between the exact minimum and what the numerator supports, in either order of the divisions, the overflow fallback included |
| `Pricing.AcceptedInvertedIsFair` | program/src/state/oracle/account.rs:213-223 | accepted against an inverted price, a swap passes the exact test against 10^P / value: two stacked ceilings never favour the borrower |
| `Pricing.InvertedPriceIsCeiling` | program/src/state/oracle/account.rs:213-223 | the inverted price is the ceiling of 10^(2P) / value for a positive value |
| `Pricing.CeilDivIsCeiling` | program/src/math.rs:13-23 | checked_ceil_div is the ceiling exactly when the divisor is positive or divides evenly |
| `Pricing.CeilDivNegativeDivisor` | program/src/math.rs:13-23 | 7 / -2: the result is -2, the ceiling is -3 |
| `Pricing.PowersOfTen` | program/src/integrations/atomic_swap/atomic_swap_repay.rs:257-259 | powers of ten fit 128 bits up to the 38th and no further |
| `Bridge.BridgeOneToOne` | program/src/integrations/lz_bridge/push.rs:78-154 | a committed transaction bridges at most once; the next-to-last instruction is a send of exactly what left the vault, of this mint, from the account the vault paid into, by the configured program to the configured destination; the last is the reset; no push is in flight at the end; no borrow commits beside it |
| `Bridge.PushPromises` | program/src/integrations/lz_bridge/push.rs:159-280 | a push finds no flight, is followed by a send of exactly what it takes from the vault to the configured destination, and its reset, each account compared, and leaves the cached balance equal to the vault |
| `Bridge.PushEndsInReset` | program/src/integrations/lz_bridge/push.rs:96-119 | the last step of a transaction with a push is the reset of the pushed integration |
| `Bridge.ResetIsLast` | program/src/integrations/lz_bridge/reset_lz_push_in_flight.rs:50-69 | a reset succeeds in the last step only |
| `Bridge.NoLaterPush` | program/src/integrations/lz_bridge/push.rs:200-209 | a second push, even an invoked one, would find the first still in flight |
| `Bridge.OnlyFlightRun` | program/src/integrations/lz_bridge/push.rs:200-209 | from push to reset no other integration is in flight |
| `Bridge.SendIsSpelledOut` | program/src/integrations/lz_bridge/push.rs:92-154 | the scan accepts exactly three closing instructions, the second a send with each of its seven accounts, its amount, destination and endpoint compared, the third this integration's reset |
| `Introspection.VerifySendIxInTx` | program/src/integrations/lz_bridge/push.rs:64-157 | accepts exactly when the current instruction, this program's own or one that invokes it, is third from the end, followed by a send of this amount from this account to the configured destination and by this program's reset of this integration |
| `Introspection.ValidateInstruction` | program/src/integrations/lz_bridge/reset_lz_push_in_flight.rs:37-72 | accepts exactly a top-level reset in the last position |
| `Processors.Bank.ProcessPushLzBridge` | program/src/integrations/lz_bridge/push.rs:159-318 | succeeds exactly when its guards hold, and then leaves the flight flag, the synced and debited reserve, the integration's limit, the transfer and the two events |
| `Processors.Bank.ProcessResetLzPushInFlight` | program/src/integrations/lz_bridge/reset_lz_push_in_flight.rs:74-97 | succeeds exactly for a top-level last reset of a bridge integration, and clears its flag and nothing else |
| `RateLimit.CalculateRateLimitIncrement` | program/src/processor/shared/rate_limit_utils.rs:4-27 | whole units and carried remainder account for the accrual exactly unless the unit count is clamped, and never exceed it |
| `RateLimit.AccrualFitsU128` | program/src/processor/shared/rate_limit_utils.rs:17-19 | the 128-bit product and sum cannot overflow |
| `RateLimit.RefreshClosedForm` | program/src/state/reserve.rs:190-211 | a refresh computes min(max, available + (slope * elapsed + remainder) / 86400) however the u64 clamps fire |
| `RateLimit.RefreshExact` | program/src/state/integration.rs:218-242 | every field of a refreshed bucket in exact arithmetic, unlimited buckets included |
| `RateLimit.ParametersExact` | program/src/state/reserve.rs:155-186 | new parameters: what is missing to the cap stays missing as far as the new cap reaches, and the carried remainder is lost only if it does not reach |
| `RateLimit.RefreshTwice` | program/src/state/integration.rs:218-242 | an intermediate refresh is invisible to the next |
| `RateLimit.RefreshPathIndependent` | program/src/state/reserve.rs:190-214 | any number of refreshes on the way gives exactly what one at the end gives |
| `RateLimit.RunBound` | program/src/state/reserve.rs:155-265 | over any run, parameter changes included, what got out is covered by the opening level, the inflows, the cap raises and the accrual at the slope in force |
| `RateLimit.OutflowBound` | program/src/state/reserve.rs:217-265 | at fixed parameters: 86400 * outflow <= 86400 * (available + inflow) + remainder + slope * elapsed |
| `RateLimit.DayWindowBound` | program/src/state/reserve.rs:155-265 | no 24-hour window, opened at any instant, lets out more than the cap it opens with, the raises of the cap, one day at the steepest slope in force, and the inflow |
| `RateLimit.SteadyDayWindowBound` | program/src/state/reserve.rs:190-265 | at a fixed slope and cap that is the cap plus the slope plus the inflow |
| `RateLimit.NetCost` | program/src/state/reserve.rs:217-265 | returning d <= n of n in the same instant costs exactly n - d |
| `Limits.ExecutesFlows` | program/src/state/reserve.rs:155-331 | every call, a change of parameters included, moves every reserve's and every integration's bucket by exactly what the ledger says left the vault and what came in, whichever handler it is; a raised cap adds its raise, and the accrual is at the slope the call found |
| `Limits.RunOutflowBound` | program/src/state/reserve.rs:155-265 | over every run of the program, live parameter changes included: what all handlers together let out of a reserve's vault, or out through an integration, and what its bucket still holds, is covered by the opening level, what came in, the cap raises, and the accrual at the slope in force |
| `Limits.RunDayBound` | program/src/state/reserve.rs:155-265 | no run of the program within a day lets out more than the cap it starts with, the cap raises, one day at the steepest slope in force, and what came in; for reserves and integrations |
| `Limits.SteadyOutflowBound` | program/src/state/integration.rs:218-280 | while slope and cap stay as they are, the bound is linear in the time that has passed; for reserves and integrations |
| `Limits.SteadyDayBound` | program/src/state/reserve.rs:190-265 | while slope and cap stay as they are, no run within a day lets out more than the cap, one day's slope and what came in |
| `State.Reserve.RefreshRateLimit` | program/src/state/reserve.rs:190-214 | refines the closed form on the fields |
| `State.Reserve.Update` | program/src/state/reserve.rs:155-186 | refreshes, then keeps the gap to the cap as far as the new cap reaches; the checked subtraction cannot fail; slope and status are those given |
| `State.Reserve.UpdateForInflow` | program/src/state/reserve.rs:217-232 | refuses a stale bucket or an overflowing balance, otherwise credits both |
| `State.Reserve.UpdateForOutflow` | program/src/state/reserve.rs:239-265 | refuses a stale bucket, an overdrawn balance and, unless underflow is allowed, an overdrawn bucket; otherwise debits both |
| `State.Reserve.SyncBalance` | program/src/state/reserve.rs:269-331 | brings the cached balance to the vault, the bucket with it, and records exactly the difference |
| `State.Integration.UpdateAndSave` | program/src/state/integration.rs:176-216 | refreshes, then changes exactly what is given, keeping the gap to the cap as far as the new cap reaches |
| `State.Integration.RefreshRateLimit` | program/src/state/integration.rs:218-242 | refines the closed form on the fields |
| `State.Integration.UpdateRateLimitForInflow` | program/src/state/integration.rs:244-262 | refuses a stale bucket, otherwise credits up to the cap |
| `State.Integration.UpdateRateLimitForOutflow` | program/src/state/integration.rs:264-280 | refuses a stale or overdrawn bucket, otherwise debits |
| `History.EventLogReplay` | program/src/state/reserve.rs:296-327 | in every reachable world, for every reserve: credits minus debits, plus what repayments returned above their loans, equal the cached balance |
| `History.LogAloneReplays` | program/src/integrations/atomic_swap/atomic_swap_repay.rs:162-173 | the log alone replays to the cached balance exactly when no repayment to the reserve returned more than its loan |
| `Setup.TheSetupCommits` | program/src/processor/initialize_reserve.rs:37-124 | from the empty world, one transaction of seven instructions (controller, permission, two reserves, oracle, price, integration) meets every guard, commits, and leaves exactly the world spelled out |
| `ExcessRepayment.TheSwapCommits` | program/src/integrations/atomic_swap/atomic_swap_borrow.rs:147-297 | in the world the setup leaves, a concrete transaction, borrow, foreign trade and repay, meets every guard and commits |
| `ExcessRepayment.SurplusUnrecorded` | program/src/integrations/atomic_swap/atomic_swap_repay.rs:162-173 | a history from the empty world: setup, then a swap that borrows one token and returns two; the log matches the balance after the setup and is one short after the swap, so the log alone does fall short in a reachable world |
| `History.ReplaysThroughout` | program/src/integrations/atomic_swap/atomic_swap_repay.rs:215-252 | inside a transaction the books balance at every step, with the amounts currently lent out |
| `Replay.ExecutesReplays` | program/src/state/reserve.rs:296-327 | every call, of every kind, keeps log, surplus, cached balances and loans in step, for every reserve at once |
| `Replay.OutstandingSplit` | program/src/integrations/atomic_swap/atomic_swap_borrow.rs:246-255 | what is lent out of a reserve is a sum over integrations that does not depend on the order it is taken in |
| `Bookkeeping.ExecutesBooks` | program/src/integrations/spl_token_external/push.rs:142-206 | a call that is not a swap or the creation of a reserve records exactly one reserve's change and one integration's movement, or nothing |
| `Lending.ExecutesLending` | program/src/integrations/shared/lending_markets.rs:22-57 | a call keeps every lending integration's record equal to its stored balance exactly when the deposit CPI did not lower the position's value, nor the withdrawal CPI raise it |
| `History.LendingLogReplay` | program/src/integrations/kamino/sync.rs:253-327 | while the lending protocol behaves, in every reachable world every lending integration's record is its stored balance, harvests included |
| `Caches.CacheAgreement` | program/src/integrations/spl_token_external/push.rs:122-173 | a call that moves or syncs a reserve leaves its cached balance equal to its vault exactly when the CPI behaved towards the vault; always for transfers, bridge pushes and plain syncs |
| `Caches.BorrowCachesAgree` | program/src/integrations/atomic_swap/atomic_swap_borrow.rs:283-286 | after a borrow both reserves' cached balances equal their vaults |
| `History.EveryWorldSound` | program/src/entrypoint.rs:34-75 | every world reachable from the empty one by the modelled calls, which are all but the Drift and CCTP arms, is valid, with no lock, loan or flight open, a manager for every controller and books that balance |
| `Processors.Bank.PayOut` | program/src/integrations/spl_token_external/push.rs:122-206 | succeeds exactly when the transfer can be made and after sync and transfer exactly the amount has left the vault and both limits allow it; then both sides are debited and both events recorded |
| `Processors.Bank.ProcessPushSplTokenExternal` | program/src/integrations/spl_token_external/push.rs:75-209 | succeeds exactly when its guards hold, and then leaves the debited reserve and integration, the transfer and the two events |
| `Processors.Bank.EmitLendingBalanceSyncEvent` | program/src/integrations/shared/lending_markets.rs:22-57 | records the signed change of a lending balance, or nothing |
| `Processors.Bank.ProcessPushKamino` | program/src/integrations/kamino/push.rs:72-293 | succeeds exactly when its guards hold, those on a closed or full obligation and on the farm accounts included, and then leaves the debit measured at the vault, the position's new value and the events |
| `Processors.Bank.ProcessPullKamino` | program/src/integrations/kamino/pull.rs:29-190 | succeeds exactly when its guards hold, those on the obligation and the farm accounts included, and then leaves the credit measured at the vault, the position's new value and the events |
| `Processors.Bank.ProcessSyncKamino` | program/src/integrations/kamino/sync.rs:42-330 | succeeds exactly when its guards hold, those on a stale reserve and on a harvest's accounts included, and then leaves the synced reserve, a harvest passed through the integration, and the position's new value |
| `Machine.ExecutesOk` | program/src/entrypoint.rs:34-75 | every successful call but those of the Drift and CCTP arms keeps every account valid and changes only what a call of its kind on its controller may: locks only by borrow, loans only by borrow and repay, flights only by push and reset |
| `Machine.ExecutesGated` | program/src/state/controller.rs:164-178 | which status each kind of call demands of the controller, and which it leaves |
| `Acceptance.EveryCallAccepted` | program/src/entrypoint.rs:34-75 | a call succeeds exactly when the access table allows it and its accounts, amounts, levels and transaction fit, spelled out for every modelled kind of call |
| `Acceptance.EveryCallAuthorized` | program/src/state/permission.rs:223-262 | no call succeeds but by the access table: the right that must be granted, by a permission in force, of this controller and signer; the controller's status; integration and reserve in service |
| `Acceptance.ExternalTransferAccepted` | program/src/integrations/spl_token_external/push.rs:40-170 | exactly when an external transfer succeeds: rights, recipient and token account as configured, balances, and both limits' levels after sync |
| `Acceptance.BridgePushAccepted` | program/src/integrations/lz_bridge/push.rs:64-280 | exactly when a bridge push succeeds: rights, nothing in flight, the send and reset that follow, balances, and both limits' levels |
| `Acceptance.BorrowAccepted` | program/src/integrations/atomic_swap/atomic_swap_borrow.rs:147-297 | exactly when a borrow succeeds: rights, pair, expiry, no loan, the repay at the end, balances, and both limits' levels |
| `Acceptance.RepayAccepted` | program/src/integrations/atomic_swap/atomic_swap_repay.rs:43-213 | exactly when a repay succeeds: rights, lock, untouched vaults, refund and proceeds payable, a fresh oracle, an accepted price |
| `Administration.EveryCallAdministered` | program/src/processor/manage_reserve.rs:30-91 | what every administrative call leaves, field by field: controllers, permissions, reserves and integrations initialized and managed, oracles, resets; nothing else changes |
| `Movements.ExternalTransferMoves` | program/src/integrations/spl_token_external/push.rs:75-209 | an external transfer pays the configured recipient's configured token account and no other, out of the vault; both limits give up the amount; both sides record it |
| `Movements.BridgePushMoves` | program/src/integrations/lz_bridge/push.rs:159-318 | a bridge push pays the pusher's token account out of the vault and puts the integration in flight; limits and records likewise |
| `Movements.DepositMoves` | program/src/integrations/kamino/push.rs:72-293 | a deposit into the integration's own market: both limits give up what left the vault, the position's new value is stored, interest, deposit and outflow are recorded |
| `Movements.WithdrawalMoves` | program/src/integrations/kamino/pull.rs:29-190 | a withdrawal likewise, topping both limits up with what reached the vault |
| `Movements.LendingSyncMoves` | program/src/integrations/kamino/sync.rs:142-330 | a lending sync stores the position's value; a harvest from the reserve's own farm passes rewards in its mint through the integration |
| `Movements.SyncMoves` | program/src/state/reserve.rs:269-331 | a sync takes over the vault's balance, moves the limit by the difference within zero and the cap, and records it |
| `Movements.BorrowMoves` | program/src/integrations/atomic_swap/atomic_swap_borrow.rs:200-297 | a borrow pays out of the input vault and nowhere else changes a balance; both reserves are synced, both limits give up the loan, the controller is locked and the balances found are noted |
| `Movements.RepayMoves` | program/src/integrations/atomic_swap/atomic_swap_repay.rs:64-255 | a repay finds the borrow's pair, vaults and balances, a fresh fair price; takes exactly the payers' excess, tops up the limits with what arrived, unlocks, forgets the loan and records spent and gained |
| `Processors.Bank.Invoke` | program/src/entrypoint.rs:34-75 | the processors, all but the Drift and CCTP arms, take exactly the machine's steps: a success is one of its steps, a failure leaves no trace and no step was possible |
| `Governance.NoLockOut` | program/src/processor/manage_permission.rs:84-99 | in every run each controller always has an active permission that can manage permissions |
| `Governance.NoEscalation` | program/src/processor/manage_permission.rs:140-174 | as long as only those sign who cannot manage a controller's permissions, no authority's effective capabilities ever exceed what they were and no permission appears, whatever else runs |
| `Accounts.SuspendedCanDoNothing` | program/src/state/permission.rs:223-262 | a suspended permission, or one granted nothing, can do none of the nine things |
| `Governance.FreezeHolds` | program/src/processor/manage_controller.rs:46-72 | while frozen, no call changes the controller's permissions, reserves, integrations (save a flight cleared) or oracle configuration, or adds any; the only exit is to Active, signed by an active holder of the right to unfreeze |
| `Governance.FrozenForever` | program/src/enums/controller_status.rs:7-15 | a frozen controller whom nobody may unfreeze stays frozen, and everything it owns stays, through every run |
| `Processors.Bank.ProcessManagePermission` | program/src/processor/manage_permission.rs:124-190 | succeeds exactly for an active manager, or a suspender suspending a non-manager, on an open controller, and never lets a permission disable its own management |
| `Processors.Bank.ManagePermission` | program/src/processor/manage_permission.rs:31-76 | creates or rewrites one permission |
| `Processors.Bank.SuspendPermission` | program/src/processor/manage_permission.rs:80-117 | suspends an existing permission that cannot manage others, and changes nothing else |
| `Processors.Bank.ProcessManageController` | program/src/processor/manage_controller.rs:29-90 | succeeds exactly for a holder of the right the new status needs, from Frozen only to Active, never to the swap lock, and never to the same status |
| `State.Controller.UpdateAndSave` | program/src/state/controller.rs:143-161 | changes the status, and refuses to keep it |
| `State.Permission.UpdateAndSave` | program/src/state/permission.rs:172-221 | changes the status and each of the nine capabilities exactly when it is given |
| `Klend.CollateralToLiquidityExact` | program/src/integrations/kamino/klend_protocol_state.rs:369-381 | shift, multiply, shift back, divide and floor are one exact floor division; the 256-bit product cannot overflow; the conversion panics exactly when 128 bits do not hold it and is exact exactly when 64 do |
| `Klend.LiquidityToCollateralExact` | program/src/integrations/kamino/klend_protocol_state.rs:383-399 | two shifts and a division are one exact floor division with no bit lost; it panics exactly when the shares do not fit 64 bits |
| `Klend.ConversionOfFields` | program/src/integrations/kamino/klend_protocol_state.rs:347-399 | on the reserve's own fields: with shares and liquidity both there each conversion is one floor division by their ratio, with either missing a share is a token; the liquidity is what is held and lent out less the three fees, wrapped around 128 bits |
| `Klend.LendingBalanceOfFields` | program/src/integrations/kamino/balance.rs:14-46 | a position is worth nothing without shares and otherwise what its shares convert to, on the reserve's own fields |
| `Klend.RoundTrip` | program/src/integrations/kamino/klend_protocol_state.rs:369-399 | converting to shares and back never gains and loses less than one share's worth plus one token |
| `Klend.RoundTripOnMachine` | program/src/integrations/kamino/pull.rs:92-99 | a redemption of the shares a deposit converts to cannot exceed the deposit and cannot panic |
| `Klend.ConversionsMonotone` | program/src/integrations/kamino/klend_protocol_state.rs:369-399 | both conversions are monotone |
| `Klend.SplittingNeverGains` | program/src/integrations/kamino/klend_protocol_state.rs:369-381 | redeeming shares in any number of pieces never totals more than redeeming them at once |
| `Klend.TotalSupplyExact` | program/src/integrations/kamino/klend_protocol_state.rs:347-353 | the total supply is exact exactly when the fees do not exceed the assets and the sum fits 128 bits |
| `Tlv.GetAllExtensionsForMint` | pinocchio-token-interface/src/lib.rs:115-146 | the scan loop computes the types of the list, in order, on every buffer |
| `Tlv.GetExtension` | pinocchio-token2022/src/extensions/mod.rs:153-188 | the lookup loop computes the first entry of the type and length, on every buffer |
| `Tlv.ScanEncoded` | pinocchio-token-interface/src/lib.rs:122-144 | scanning an encoded extension list returns its types in order |
| `Tlv.LookupEncoded` | pinocchio-token2022/src/extensions/mod.rs:163-188 | looking up in an encoded list returns the first payload of the type and length |
| `Tlv.FirstSizedIsFirst` | pinocchio-token2022/src/extensions/mod.rs:170-184 | the lookup succeeds exactly when some entry has the type and the length, and returns the first such payload |
| `Tlv.EveryBuffer` | pinocchio-token-interface/src/lib.rs:122-144 | any buffer is a list of entries and a tail that begins with none |
| `Tlv.ScanOfAny` | pinocchio-token-interface/src/lib.rs:122-144 | scanning any buffer: out of bounds where a type or length is cut short, an error at an unknown type, otherwise the types of the entries and of a last one whose payload alone is cut short |
| `Tlv.LookupInAny` | pinocchio-token2022/src/extensions/mod.rs:163-188 | looking up in any buffer: the first fitting entry if there is one, otherwise nothing, or out of bounds where the tail cuts short a header or the very entry sought |
| `Tlv.ValidateMintExtensions` | program/src/processor/shared/token_extensions.rs:59-96 | the check loop computes the verdict over every extension of the mint |
| `Tlv.AcceptedMint` | program/src/processor/shared/token_extensions.rs:66-93 | by type numbers, lengths and offsets: a mint is accepted exactly when every extension is allowed and none blocked, its first well-sized Pausable is not paused and its first well-sized TransferHook names no program |

## Left out

- Drift and CCTP: on the reserve's side they repeat the sync, move, check and record of the handlers modelled here;
  Drift's integration events come from market vaults while its balance is recomputed, so the replay of a lending
  record is not a property of that code.
- Account plumbing: owner, signer and writable flags, rent, account creation, Borsh layouts, and the hashing of
  derived addresses. Signatures appear only as the authority a permission names.
- The checks on mint extensions when reserves and integrations are initialized are modelled by themselves in `Tlv`
  and not repeated as guards of those two handlers; the same holds for the bridge and Kamino account checks made
  once at initialization.
- `claim_rent` and `emit_event`: they leave every account of the model alone, and are steps that change nothing.
- Oracle feed decoding and verification of the feed's owner: a refresh takes its value and slot from outside.
- Which error an instruction returns: the processors return the source's errors, but their contracts tell success
  from failure only.
- Negative timestamps, on which the rate limiter takes an absolute value: the runtime's clock is not negative.
- Events that are not accounting events (controller, permission, reserve, integration and oracle updates).
- SwapOutcome.SwapNetCost: states the cost to reserve A and to the integration; reserve B's limit is part of
  `SwapOutcome.EverySwapCompletes`.
- Machine.ExecutesOk: for the calls the machine has; a Drift or CCTP push, pull or sync is not one of them.
- Processors.Bank.Invoke: has no Drift or CCTP arm, as above; such a call is refused.
- History.EveryWorldSound: for histories without Drift or CCTP calls, as above.
- Processors.Bank.ProcessAtomicSwapBorrow: accounts are loaded into objects, worked on and saved in the source's
  order, except that guards which only read are checked together; nothing in between can observe the difference.
- Processors.Bank.ManagePermission: a permission, reserve or integration whose seeds are already taken is refused by
  a search, where the source recomputes the derived address.
