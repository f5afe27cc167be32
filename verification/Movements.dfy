/**
 What each call that moves tokens leaves behind, spelled out on the token ledger, the accounts and the log,
 in exact arithmetic: which token accounts change and by how much, what both rate limits have left, and what
 is recorded.
 */
module Movements {
  import opened Words
  import opened RateLimit
  import opened Accounts
  import opened Introspection
  import opened Handlers
  import opened Machine
  import Klend
  import Processors
  import SwapOutcome

  // ---------- reserves in step with their vaults ----------

  /** What a reserve's limit has to give once its cached balance has been brought to `balance`. */
  ghost function LevelAfterSync(r: ReserveData, clock: Clock, balance: u64): u64
    requires ValidLimit(r.limit, clock)
  {
    Max(0, Min(r.limit.max, Level(r.limit, clock.ts) + balance - r.lastBalance))
  }

  /** The event that brings a recorded balance from `before` to `after`. */
  ghost function Balancing(controller: Pubkey, subject: Subject, mint: Pubkey, before: u64, after: u64)
    : seq<AccountingEvent>
  {
    if after > before then [AccountingEvent(controller, subject, mint, Sync, after - before, Credit)]
    else if after < before then [AccountingEvent(controller, subject, mint, Sync, before - after, Debit)]
    else []
  }

  /** The reserve synced with a vault of `balance` and then moved by `delta` tokens, as far as its cap. */
  ghost function Shifted(r: ReserveData, clock: Clock, balance: u64, delta: int): ReserveData
    requires ValidLimit(r.limit, clock) && 0 <= balance + delta <= U64_MAX
    requires -(LevelAfterSync(r, clock, balance) as int) <= delta
  {
    var level := Min(r.limit.max, LevelAfterSync(r, clock, balance) + delta);
    r.(limit := Refilled(r.limit, clock).(available := level), lastBalance := balance + delta)
  }

  /** The same for an integration's limit. */
  ghost function Passed(i: IntegrationData, clock: Clock, delta: int, state: IntegrationState): IntegrationData
    requires ValidLimit(i.limit, clock) && -(Level(i.limit, clock.ts) as int) <= delta <= U64_MAX
  {
    var level := Min(i.limit.max, Level(i.limit, clock.ts) + delta);
    i.(limit := Refilled(i.limit, clock).(available := level), state := state)
  }

  lemma SyncExact(r: ReserveData, clock: Clock, balance: u64)
    requires ValidLimit(r.limit, clock)
    ensures SyncedReserve(r, clock, balance) == Shifted(r, clock, balance, 0)
  {
    RefreshExact(r.limit, clock);
  }

  lemma SyncEventsExact(key: Pubkey, r: ReserveData, balance: u64)
    ensures SyncEvents(key, r, balance) == Balancing(r.controller, OfReserve(key), r.mint, r.lastBalance, balance)
  {
  }

  lemma LendingSyncEventsExact(controller: Pubkey, key: Pubkey, mint: Pubkey, before: u64, after: u64)
    ensures LendingSyncEvents(controller, key, mint, before, after)
         == Balancing(controller, OfIntegration(key), mint, before, after)
  {
  }

  lemma OutExact(r: ReserveData, clock: Clock, balance: u64, amount: u64)
    requires ValidLimit(r.limit, clock)
    ensures var s := SyncedReserve(r, clock, balance);
            && s.lastBalance == balance && s.limit.available == LevelAfterSync(r, clock, balance)
            && (amount <= balance && amount <= s.limit.available ==>
                  s.(limit := WithOutflow(s.limit, amount), lastBalance := s.lastBalance - amount)
                  == Shifted(r, clock, balance, -(amount as int)))
  {
    hide SyncedReserve;
    SyncExact(r, clock, balance);
  }

  lemma InExact(r: ReserveData, clock: Clock, balance: u64, amount: u64)
    requires ValidLimit(r.limit, clock)
    ensures var s := SyncedReserve(r, clock, balance);
            && s.lastBalance == balance
            && (balance + amount <= U64_MAX ==>
                  s.(limit := WithInflow(s.limit, amount), lastBalance := s.lastBalance + amount)
                  == Shifted(r, clock, balance, amount))
  {
    hide SyncedReserve;
    SyncExact(r, clock, balance);
  }

  lemma ThroughExact(i: IntegrationData, clock: Clock, amount: u64, state: IntegrationState)
    requires ValidLimit(i.limit, clock)
    ensures Refreshed(i.limit, clock).available == Level(i.limit, clock.ts)
    ensures i.(limit := Refreshed(i.limit, clock), state := state) == Passed(i, clock, 0, state)
    ensures i.(limit := WithInflow(Refreshed(i.limit, clock), amount), state := state)
         == Passed(i, clock, amount, state)
    ensures amount <= Level(i.limit, clock.ts) ==>
              i.(limit := WithOutflow(Refreshed(i.limit, clock), amount), state := state)
              == Passed(i, clock, -(amount as int), state)
  {
    hide Refreshed;
    RefreshExact(i.limit, clock);
  }

  // ---------- the token ledger ----------

  /** `amount` leaves `from`, `received` of it reaches `to`, which is opened if need be, and no other token
      account changes. */
  ghost predicate Paid(tokens: Ledger, tokens': Ledger, from: Pubkey, to: Pubkey, mint: Pubkey, amount: nat,
                       received: nat)
  {
    && from != to && from in tokens && from in tokens' && to in tokens'
    && tokens[from].mint == tokens'[from].mint == tokens'[to].mint == mint
    && (to in tokens ==> tokens[to].mint == mint)
    && tokens'[from].amount == tokens[from].amount - amount
    && tokens'[to].amount == (if to in tokens then tokens[to].amount else 0) + received
    && (forall k :: k != from && k != to ==>
          (k in tokens <==> k in tokens') && (k in tokens ==> tokens'[k] == tokens[k]))
  }

  /** A reserve and an integration are synced and then move by `delta` tokens together; nothing else does. */
  ghost predicate Flowed(w: World, w': World, key: Pubkey, through: Pubkey, delta: int, state: IntegrationState) {
    && key in w.reserves && through in w.integrations && w.reserves[key].vault in w.tokens
    && var r := w.reserves[key]; var i := w.integrations[through]; var balance := w.tokens[r.vault].amount;
    && ValidLimit(r.limit, w.clock) && ValidLimit(i.limit, w.clock)
    && 0 <= balance + delta <= U64_MAX
    && -(LevelAfterSync(r, w.clock, balance) as int) <= delta
    && -(Level(i.limit, w.clock.ts) as int) <= delta <= U64_MAX
    && w'.reserves == w.reserves[key := Shifted(r, w.clock, balance, delta)]
    && w'.integrations == w.integrations[through := Passed(i, w.clock, delta, state)]
    && w'.controllers == w.controllers && w'.permissions == w.permissions && w'.oracles == w.oracles
    && w'.clock == w.clock && w'.repayments == w.repayments
  }

  lemma SendPays(w: World, vault: Pubkey, to: Pubkey, mint: Pubkey, amount: u64, env: Environment)
    requires CanSend(w, vault, to, mint, amount, env) && vault in w.tokens
    ensures var tokens := Sent(w, vault, to, mint, amount, env);
            if vault == to then tokens == w.tokens
            else Paid(w.tokens, tokens, vault, to, mint, amount, env.received)
  {
  }

  lemma PaidOutExact(w: World, a: seq<Pubkey>, tokens: Ledger, amount: u64, state: IntegrationState,
                     action: AccountingAction)
    requires ValidWorld(w) && OuterOk(w, a) && CanPayOut(w, a, tokens, amount)
    ensures var w' := PaidOut(w, a, tokens, amount, state, action);
            && Flowed(w, w', a[5], a[4], -(amount as int), state) && w'.tokens == tokens
            && var r := w.reserves[a[5]];
            && w'.log == w.log
                 + Balancing(a[0], OfReserve(a[5]), r.mint, r.lastBalance, w.tokens[r.vault].amount)
                 + [AccountingEvent(a[0], OfReserve(a[5]), r.mint, action, amount, Debit),
                    AccountingEvent(a[0], OfIntegration(a[4]), r.mint, action, amount, Credit)]
  {
    hide ValidWorld, CanPayOut, PaidOut, SyncedReserve, SyncEvents, Refreshed, WithOutflow, Shifted, Passed,
      LevelAfterSync, Level, Balancing, ValidLimit;
    Processors.OuterLoads(w, a);
    ReserveLimitValid(w, a[5]);
    IntegrationLimitValid(w, a[4]);
    Processors.PayOutSaves(w, a, tokens, amount, state, action);
    OutExact(w.reserves[a[5]], w.clock, VaultBalance(w, a[5]), amount);
    ThroughExact(w.integrations[a[4]], w.clock, amount, state);
    SyncEventsExact(a[5], w.reserves[a[5]], VaultBalance(w, a[5]));
  }

  // ---------- external transfers ----------

  /** An external transfer pays the configured recipient's configured token account, nobody else, out of
      the reserve's vault; both limits give up the amount, and it is recorded on both sides. */
  lemma ExternalTransferMoves(w: World, c: Call, w': World)
    requires Ready(w, c) && Executes(w, c, w') && c.ix.data.disc == 10 && c.ix.data.args.SplTokenExternal?
    ensures var a, amount := c.ix.accounts, c.ix.data.args.amount;
            && |a| >= 14 && amount > 0 && a[4] in w.integrations && a[5] in w.reserves
            && var config, r := w.integrations[a[4]].config, w.reserves[a[5]];
            && config.SplTokenExternalConfig? && r.mint == config.mint
            && config.program == a[11] && config.recipient == a[9] && config.tokenAccount == a[10]
            && Paid(w.tokens, w'.tokens, r.vault, config.tokenAccount, r.mint, amount, c.env.received)
            && Flowed(w, w', a[5], a[4], -(amount as int), w.integrations[a[4]].state)
            && w'.log == w.log
                 + Balancing(a[0], OfReserve(a[5]), r.mint, r.lastBalance, w.tokens[r.vault].amount)
                 + [AccountingEvent(a[0], OfReserve(a[5]), r.mint, ExternalTransfer, amount, Debit),
                    AccountingEvent(a[0], OfIntegration(a[4]), r.mint, ExternalTransfer, amount, Credit)]
  {
    hide ValidWorld, PaidOut, Flowed, Balancing, Paid, Sent, CanSend, Executes, SyncedReserve;
    var a, amount := c.ix.accounts, c.ix.data.args.amount;
    SplPushTaken(w, c, w');
    var tokens := Sent(w, a[8], a[10], a[7], amount, c.env);
    PaidOutExact(w, a, tokens, amount, w.integrations[a[4]].state, ExternalTransfer);
    Processors.OuterLoads(w, a);
    SendPays(w, a[8], a[10], a[7], amount, c.env);
    Processors.CanPayOutMeans(w, a, tokens, amount);
  }

  lemma SplPushTaken(w: World, c: Call, w': World)
    requires Ready(w, c) && Executes(w, c, w') && c.ix.data.disc == 10 && c.ix.data.args.SplTokenExternal?
    ensures PushSplTokenExternalStep(w, c, w')
  {
    hide ValidWorld, PushLzBridgeOk, PushSplTokenExternalOk, PushKaminoOk;
  }

  // ---------- bridge pushes ----------

  /** A bridge push pays the pusher's own token account out of the reserve's vault, and puts the integration
      in flight; where the tokens go from there is `Bridge.BridgeOneToOne`. */
  lemma BridgePushMoves(w: World, c: Call, w': World)
    requires Ready(w, c) && Executes(w, c, w') && c.ix.data.disc == 10 && c.ix.data.args.LzBridge?
    ensures c.IsLzPush()
    ensures var a, amount := c.ix.accounts, c.ix.data.args.amount;
            && |a| >= 14 && amount > 0 && a[4] in w.integrations && a[5] in w.reserves
            && var i, r := w.integrations[a[4]], w.reserves[a[5]];
            && i.config.LzBridgeConfig? && r.mint == i.config.mint && i.state == LzBridgeState(false)
            && Paid(w.tokens, w'.tokens, r.vault, a[9], r.mint, amount, c.env.received)
            && Flowed(w, w', a[5], a[4], -(amount as int), LzBridgeState(true))
            && w'.log == w.log
                 + Balancing(a[0], OfReserve(a[5]), r.mint, r.lastBalance, w.tokens[r.vault].amount)
                 + [AccountingEvent(a[0], OfReserve(a[5]), r.mint, BridgeSend, amount, Debit),
                    AccountingEvent(a[0], OfIntegration(a[4]), r.mint, BridgeSend, amount, Credit)]
  {
    hide ValidWorld, PaidOut, Flowed, Balancing, Paid, Sent, CanSend, Executes, SyncedReserve, SendFollows;
    var a, amount := c.ix.accounts, c.ix.data.args.amount;
    LzPushTaken(w, c, w');
    var tokens := Sent(w, a[8], a[9], a[7], amount, c.env);
    PaidOutExact(w, a, tokens, amount, LzBridgeState(true), BridgeSend);
    Processors.OuterLoads(w, a);
    SendPays(w, a[8], a[9], a[7], amount, c.env);
    Processors.CanPayOutMeans(w, a, tokens, amount);
    StateOfIntegration(w, a[4]);
  }

  lemma StateOfIntegration(w: World, key: Pubkey)
    requires ValidWorld(w) && key in w.integrations
    ensures w.integrations[key].StateFits()
  {
  }

  // ---------- Kamino ----------

  /** The accounts are the integration's own and the reserve's own, the market's derived ones, and the farms
      program's wherever a farm account is given. */
  ghost predicate OwnMarket(w: World, a: seq<Pubkey>, market: LendingMarket) {
    && |a| >= 23 && a[4] in w.integrations && a[5] in w.reserves
    && var config, r := w.integrations[a[4]].config, w.reserves[a[5]];
    && config.KaminoConfig? && config.market == a[15] && config.reserve == a[9] && config.obligation == a[8]
    && config.mint == a[10] == r.mint && r.vault == a[7]
    && a[14] == market.marketAuthority
    && (a[20] == DEFAULT_PUBKEY || a[20] in market.farmAccounts)
    && (a[19] == a[22] || (a[19] in market.farmAccounts && a[19] == market.obligationFarm))
  }

  /** A deposit leaves what the lending protocol leaves; both limits give up what it took from the vault, the
      integration's balance is the position's new value, and interest, deposit and outflow are recorded. */
  lemma DepositMoves(w: World, c: Call, w': World)
    requires Ready(w, c) && Executes(w, c, w') && c.ix.data.disc == 10 && c.ix.data.args.Kamino?
    ensures var a := c.ix.accounts;
            && OwnMarket(w, a, c.env.market) && c.ix.data.args.amount > 0
            && (c.env.market.obligation == Closed ==> |a| >= 27 && a[24] == c.env.market.userMetadata)
            && c.env.market.obligation != Open(true, false)
            && var i, r := w.integrations[a[4]], w.reserves[a[5]];
            && i.state.LendingState? && r.vault in w.tokens && r.vault in c.env.tokens
            && var before, after := Klend.LendingBalance(c.env.before), Klend.LendingBalance(c.env.after);
            && before.Some? && after.Some? && w'.tokens == c.env.tokens
            && var taken := Max(w.tokens[r.vault].amount - c.env.tokens[r.vault].amount, 0);
            && Flowed(w, w', a[5], a[4], -taken, LendingState(after.value))
            && w'.log == w.log
                 + Balancing(a[0], OfReserve(a[5]), r.mint, r.lastBalance, w.tokens[r.vault].amount)
                 + Balancing(a[0], OfIntegration(a[4]), r.mint, i.state.balance, before.value)
                 + [AccountingEvent(a[0], OfIntegration(a[4]), r.mint, Deposit,
                                    Max(after.value - before.value, 0), Credit),
                    AccountingEvent(a[0], OfReserve(a[5]), r.mint, Deposit, taken, Debit)]
  {
    hide ValidWorld, PushKaminoPost, Flowed, Balancing, Executes, SyncedReserve, SyncEvents, LendingSyncEvents,
      Klend.LendingBalance, VaultsOpen, Shifted, Passed, WithOutflow, Refreshed, LevelAfterSync, Level;
    var a := c.ix.accounts;
    DepositTaken(w, c, w');
    Processors.OuterLoads(w, a);
    Processors.KaminoLoads(w, a, c.env);
    Processors.PushKaminoSaves(w, a, c.ix.data.args.amount, c.env);
    var r, i := w.reserves[a[5]], w.integrations[a[4]];
    SyncEventsExact(a[5], r, VaultBalance(w, a[5]));
    LendingSyncEventsExact(a[0], a[4], r.mint, i.state.balance, Klend.LendingBalance(c.env.before).value);
    FlowedOut(w, w', a[5], a[4], SaturatingSub(VaultBalance(w, a[5]), c.env.tokens[r.vault].amount),
              LendingState(Klend.LendingBalance(c.env.after).value));
  }

  lemma DepositTaken(w: World, c: Call, w': World)
    requires Ready(w, c) && Executes(w, c, w') && c.ix.data.disc == 10 && c.ix.data.args.Kamino?
    ensures PushKaminoStep(w, c, w')
  {
    hide ValidWorld, PushLzBridgeOk, PushSplTokenExternalOk, PushKaminoOk;
  }

  /** The shape of an outflow after a sync, in exact arithmetic. */
  lemma FlowedOut(w: World, w': World, key: Pubkey, through: Pubkey, amount: u64, state: IntegrationState)
    requires ValidWorld(w) && key in w.reserves && through in w.integrations && w.reserves[key].vault in w.tokens
    requires w.reserves[key].limit.lastTs <= w.clock.ts && w.integrations[through].limit.lastTs <= w.clock.ts
    requires var r := SyncedReserve(w.reserves[key], w.clock, VaultBalance(w, key));
             var i := w.integrations[through];
             && amount <= r.limit.available && amount <= r.lastBalance
             && amount <= Refreshed(i.limit, w.clock).available
             && w'.reserves == w.reserves[key := r.(limit := WithOutflow(r.limit, amount),
                                                    lastBalance := r.lastBalance - amount)]
             && w'.integrations == w.integrations[through :=
                  i.(limit := WithOutflow(Refreshed(i.limit, w.clock), amount), state := state)]
    requires w'.controllers == w.controllers && w'.permissions == w.permissions && w'.oracles == w.oracles
    requires w'.clock == w.clock && w'.repayments == w.repayments
    ensures Flowed(w, w', key, through, -(amount as int), state)
  {
    hide ValidWorld, SyncedReserve, Refreshed, WithOutflow, Shifted, Passed, LevelAfterSync, Level, ValidLimit;
    ReserveLimitValid(w, key);
    IntegrationLimitValid(w, through);
    OutExact(w.reserves[key], w.clock, VaultBalance(w, key), amount);
    ThroughExact(w.integrations[through], w.clock, amount, state);
  }

  /** The shape of an inflow after a sync, in exact arithmetic. */
  lemma FlowedIn(w: World, w': World, key: Pubkey, through: Pubkey, amount: u64, state: IntegrationState)
    requires ValidWorld(w) && key in w.reserves && through in w.integrations && w.reserves[key].vault in w.tokens
    requires w.reserves[key].limit.lastTs <= w.clock.ts && w.integrations[through].limit.lastTs <= w.clock.ts
    requires var r := SyncedReserve(w.reserves[key], w.clock, VaultBalance(w, key));
             var i := w.integrations[through];
             && r.lastBalance + amount <= U64_MAX
             && w'.reserves == w.reserves[key := r.(limit := WithInflow(r.limit, amount),
                                                    lastBalance := r.lastBalance + amount)]
             && w'.integrations == w.integrations[through :=
                  i.(limit := WithInflow(Refreshed(i.limit, w.clock), amount), state := state)]
    requires w'.controllers == w.controllers && w'.permissions == w.permissions && w'.oracles == w.oracles
    requires w'.clock == w.clock && w'.repayments == w.repayments
    ensures Flowed(w, w', key, through, amount, state)
  {
    hide ValidWorld, SyncedReserve, Refreshed, WithInflow, Shifted, Passed, LevelAfterSync, Level, ValidLimit;
    ReserveLimitValid(w, key);
    IntegrationLimitValid(w, through);
    InExact(w.reserves[key], w.clock, VaultBalance(w, key), amount);
    ThroughExact(w.integrations[through], w.clock, amount, state);
  }

  /** A withdrawal, likewise: both limits are topped up with what it brought into the vault. */
  lemma WithdrawalMoves(w: World, c: Call, w': World)
    requires Ready(w, c) && Executes(w, c, w') && c.ix.data.disc == 11
    ensures var a := c.ix.accounts;
            && OwnMarket(w, a, c.env.market) && c.ix.data.args.Kamino? && c.ix.data.args.amount > 0
            && c.env.market.obligation != Closed
            && var i, r := w.integrations[a[4]], w.reserves[a[5]];
            && i.state.LendingState? && r.vault in w.tokens && r.vault in c.env.tokens
            && var before, after := Klend.LendingBalance(c.env.before), Klend.LendingBalance(c.env.after);
            && before.Some? && after.Some? && w'.tokens == c.env.tokens
            && c.env.before.reserve.LiquidityToCollateral(c.ix.data.args.amount).Some?
            && var added := Max(c.env.tokens[r.vault].amount - w.tokens[r.vault].amount, 0);
            && Flowed(w, w', a[5], a[4], added, LendingState(after.value))
            && w'.log == w.log
                 + Balancing(a[0], OfReserve(a[5]), r.mint, r.lastBalance, w.tokens[r.vault].amount)
                 + Balancing(a[0], OfIntegration(a[4]), r.mint, i.state.balance, before.value)
                 + [AccountingEvent(a[0], OfIntegration(a[4]), r.mint, Withdrawal,
                                    Max(before.value - after.value, 0), Debit),
                    AccountingEvent(a[0], OfReserve(a[5]), r.mint, Withdrawal, added, Credit)]
  {
    hide ValidWorld, PullKaminoPost, Flowed, Balancing, SyncedReserve, SyncEvents, LendingSyncEvents,
      Klend.LendingBalance, VaultsOpen, Shifted, Passed, WithInflow, Refreshed, LevelAfterSync, Level,
      Klend.KaminoReserve.LiquidityToCollateral;
    var a := c.ix.accounts;
    Processors.OuterLoads(w, a);
    Processors.KaminoLoads(w, a, c.env);
    Processors.PullKaminoSaves(w, a, c.ix.data.args.amount, c.env);
    var r, i := w.reserves[a[5]], w.integrations[a[4]];
    SyncEventsExact(a[5], r, VaultBalance(w, a[5]));
    LendingSyncEventsExact(a[0], a[4], r.mint, i.state.balance, Klend.LendingBalance(c.env.before).value);
    FlowedIn(w, w', a[5], a[4], SaturatingSub(c.env.tokens[r.vault].amount, VaultBalance(w, a[5])),
             LendingState(Klend.LendingBalance(c.env.after).value));
  }

  /** The accounts of a harvest: those of the reserve's own farm, which lists the reward. */
  predicate OwnFarm(a: seq<Pubkey>, market: LendingMarket)
    requires market.farm.RewardFarm?
  {
    && |a| >= 21
    && a[8] == market.obligationFarm && a[9] == market.farm.key && a[10] == market.farm.vault
    && a[11] == market.farm.treasury && a[12] == market.farm.vaultsAuthority
    && a[8] in market.farmAccounts && a[9] in market.farmAccounts && a[13] in market.farmAccounts
    && (a[15], a[17]) in market.farm.rewards
  }

  /** A lending sync takes over the position's value; a harvest, made when there is a farm and accounts for it
      are given, passes rewards in the reserve's own mint through the integration into the vault. */
  lemma LendingSyncMoves(w: World, c: Call, w': World)
    requires Ready(w, c) && Executes(w, c, w') && c.ix.data.disc == 9
    ensures var a, market := c.ix.accounts, c.env.market;
            && |a| >= 8 && a[3] in w.integrations && a[4] in w.reserves && !market.stale
            && var i, r := w.integrations[a[3]], w.reserves[a[4]];
            && i.controller == r.controller == a[0] && i.config.KaminoConfig? && i.state.LendingState?
            && i.config.obligation == a[7] && i.config.reserve == a[6] && i.config.mint == r.mint && r.vault == a[5]
            && r.vault in w.tokens && r.vault in c.env.tokens
            && var harvests := market.farm.RewardFarm? && |a| > 8;
            && (harvests ==> OwnFarm(a, market))
            && var own := harvests && a[15] == r.mint;
            && var added := if own then Max(c.env.tokens[r.vault].amount - w.tokens[r.vault].amount, 0) else 0;
            && var after := Klend.LendingBalance(c.env.after);
            && after.Some? && w'.tokens == (if harvests then c.env.tokens else w.tokens)
            && Flowed(w, w', a[4], a[3], added, LendingState(after.value))
            && w'.log == w.log
                 + Balancing(a[0], OfReserve(a[4]), r.mint, r.lastBalance, w.tokens[r.vault].amount)
                 + (if own then [AccountingEvent(a[0], OfIntegration(a[3]), r.mint, Sync, added, Credit),
                                 AccountingEvent(a[0], OfIntegration(a[3]), r.mint, Withdrawal, added, Debit),
                                 AccountingEvent(a[0], OfReserve(a[4]), r.mint, Withdrawal, added, Credit)] else [])
                 + Balancing(a[0], OfIntegration(a[3]), r.mint, i.state.balance, after.value)
  {
    hide ValidWorld, SyncKaminoPost, Flowed, Balancing, SyncedReserve, SyncEvents, LendingSyncEvents,
      Klend.LendingBalance, VaultsOpen, Shifted, Passed, WithInflow, Refreshed, LevelAfterSync, Level;
    var a := c.ix.accounts;
    Processors.SyncKaminoLoads(w, a, c.env);
    Processors.SyncKaminoSaves(w, a, c.env);
    var r, i := w.reserves[a[4]], w.integrations[a[3]];
    SyncEventsExact(a[4], r, VaultBalance(w, a[4]));
    LendingSyncEventsExact(a[0], a[3], r.mint, i.state.balance, Klend.LendingBalance(c.env.after).value);
    var own := HarvestedMint(a, c.env.market) == Some(r.mint);
    var added := if own then SaturatingSub(c.env.tokens[r.vault].amount, VaultBalance(w, a[4])) else 0;
    NothingIn(w, a[4], a[3]);
    FlowedIn(w, w', a[4], a[3], added, LendingState(Klend.LendingBalance(c.env.after).value));
  }

  lemma NothingIn(w: World, key: Pubkey, through: Pubkey)
    requires ValidWorld(w) && key in w.reserves && through in w.integrations && w.reserves[key].vault in w.tokens
    requires w.reserves[key].limit.lastTs <= w.clock.ts && w.integrations[through].limit.lastTs <= w.clock.ts
    ensures var b := SyncedReserve(w.reserves[key], w.clock, VaultBalance(w, key)).limit; WithInflow(b, 0) == b
    ensures var b := Refreshed(w.integrations[through].limit, w.clock); WithInflow(b, 0) == b
  {
    hide ValidWorld, SyncedReserve, Refreshed;
    ReserveLimitValid(w, key);
    IntegrationLimitValid(w, through);
    SyncedReserveValid(w.reserves[key], w.clock, VaultBalance(w, key));
    FlowsValid(w.integrations[through].limit, w.clock, 0);
  }

  /** A plain sync takes over the vault's balance. */
  lemma SyncMoves(w: World, c: Call, w': World)
    requires Ready(w, c) && Executes(w, c, w') && c.ix.data.disc == 8
    ensures var a := c.ix.accounts;
            && |a| >= 4 && a[2] in w.reserves && w.reserves[a[2]].controller == a[0]
            && var r := w.reserves[a[2]];
            && r.vault == a[3] && r.vault in w.tokens && ValidLimit(r.limit, w.clock)
            && var balance := w.tokens[r.vault].amount;
            && w' == w.(reserves := w.reserves[a[2] := Shifted(r, w.clock, balance, 0)],
                        log := w.log + Balancing(a[0], OfReserve(a[2]), r.mint, r.lastBalance, balance))
  {
    hide ReservesValid, IntegrationsValid, SyncedReserve, SyncEvents, Balancing, Shifted, LevelAfterSync;
    var a := c.ix.accounts;
    ReserveLimitValid(w, a[2]);
    SyncExact(w.reserves[a[2]], w.clock, VaultBalance(w, a[2]));
    SyncEventsExact(a[2], w.reserves[a[2]], VaultBalance(w, a[2]));
  }

  // ---------- atomic swaps ----------

  /** A borrow lends out of the input reserve to the borrower's account, locks the controller, and notes the
      loan with the balances it found. */
  lemma BorrowMoves(w: World, c: Call, w': World)
    requires Ready(w, c) && Executes(w, c, w') && c.ix.data.disc == 15
    ensures c.IsBorrow()
    ensures var a := c.ix.accounts;
            && |a| >= 15 && c.ix.data.args.Borrow? && c.ix.data.args.amount > 0
            && a[0] in w.controllers && a[4] in w.integrations
            && a[5] in w.reserves && a[8] in w.reserves && a[5] != a[8]
            && var i, rA, rB, amount := w.integrations[a[4]], w.reserves[a[5]], w.reserves[a[8]], c.ix.data.args.amount;
            && i.config.AtomicSwapConfig? && i.config.inputToken == rA.mint && i.config.outputToken == rB.mint
            && i.state.AtomicSwapState? && i.state.amountBorrowed == 0 && w.clock.ts < i.config.expiryTimestamp
            && rA.vault == a[6] && rB.vault == a[9] && rA.mint == a[7]
            && a[6] in w.tokens && a[9] in w.tokens && a[10] in w.tokens && a[11] in w.tokens
            && var balanceA, balanceB := w.tokens[a[6]].amount, w.tokens[a[9]].amount;
            && ValidLimit(rA.limit, w.clock) && ValidLimit(rB.limit, w.clock) && ValidLimit(i.limit, w.clock)
            && amount <= balanceA && amount <= LevelAfterSync(rA, w.clock, balanceA)
            && amount <= Level(i.limit, w.clock.ts)
            && Paid(w.tokens, w'.tokens, a[6], a[10], rA.mint, amount, c.env.received)
            && w' == w.(
                 tokens := w'.tokens,
                 controllers := w.controllers[a[0] := w.controllers[a[0]].(status := AtomicSwapLock)],
                 reserves := w.reserves[a[5] := Shifted(rA, w.clock, balanceA, -(amount as int))]
                                       [a[8] := Shifted(rB, w.clock, balanceB, 0)],
                 integrations := w.integrations[a[4] := Passed(i, w.clock, -(amount as int),
                   AtomicSwapState(balanceA, balanceB, amount, w.tokens[a[10]].amount, w.tokens[a[11]].amount))],
                 log := w.log + Balancing(a[0], OfReserve(a[5]), rA.mint, rA.lastBalance, balanceA)
                              + Balancing(a[0], OfReserve(a[8]), rB.mint, rB.lastBalance, balanceB))
  {
    hide ReservesValid, IntegrationsValid, BorrowPost, SyncedReserve, SyncEvents, Balancing, Shifted, Passed,
      WithOutflow, Refreshed, LevelAfterSync, Level, Transferred, CanTransfer, Executes, Paid, ValidLimit;
    var a := c.ix.accounts;
    BorrowTaken(w, c, w');
    var amount := c.ix.data.args.amount;
    Processors.BorrowSaves(w, c.ixs, c.cur, a, amount, c.env);
    SwapReservesDiffer(w, a[4], a[5], a[8]);
    ReserveLimitValid(w, a[5]);
    ReserveLimitValid(w, a[8]);
    IntegrationLimitValid(w, a[4]);
    OutExact(w.reserves[a[5]], w.clock, w.tokens[a[6]].amount, amount);
    SyncExact(w.reserves[a[8]], w.clock, w.tokens[a[9]].amount);
    ThroughExact(w.integrations[a[4]], w.clock, amount, w'.integrations[a[4]].state);
    SyncEventsExact(a[5], w.reserves[a[5]], w.tokens[a[6]].amount);
    SyncEventsExact(a[8], w.reserves[a[8]], w.tokens[a[9]].amount);
    TransferPays(w.tokens, a[6], a[10], a[7], amount, c.env.received);
  }

  lemma TransferPays(tokens: Ledger, from: Pubkey, to: Pubkey, mint: Pubkey, amount: u64, received: u64)
    requires CanTransfer(tokens, from, to, mint, amount, received) && from != to
    ensures Paid(tokens, Transferred(tokens, from, to, amount, received), from, to, mint, amount, received)
  {
  }

  /** A limit topped up with `amount`, as far as its cap. */
  function ToppedUp(b: Bucket, amount: u64): Bucket {
    b.(available := Min(b.max, b.available + amount))
  }

  lemma InflowExact(b: Bucket, amount: u64)
    ensures WithInflow(b, amount) == ToppedUp(b, amount)
  {
  }

  /** The refund and the proceeds, from payers that are not the vaults they pay: the payer's first account keeps
      what it held before the borrow, or less; the second exactly that. */
  ghost predicate SettledUp(tokens: Ledger, tokens': Ledger, a: seq<Pubkey>, state: IntegrationState, env: Environment)
    requires |a| >= 17 && state.AtomicSwapState?
  {
    && a[7] in tokens && a[10] in tokens && a[13] in tokens && a[14] in tokens
    && a[7] in tokens' && a[10] in tokens' && a[13] in tokens' && a[14] in tokens'
    && var refunds := tokens[a[13]].amount > state.recipientTokenAPre;
    && tokens'[a[7]].amount == tokens[a[7]].amount + (if refunds then env.received else 0)
    && tokens'[a[10]].amount == tokens[a[10]].amount + env.receivedB
    && (refunds ==> tokens'[a[13]].amount == state.recipientTokenAPre)
    && tokens'[a[14]].amount == state.recipientTokenBPre
    && (a[13] != a[10] && a[13] != a[14] ==> tokens'[a[13]].amount <= state.recipientTokenAPre)
    && (forall k :: k !in [a[7], a[10], a[13], a[14]] ==>
          (k in tokens <==> k in tokens') && (k in tokens ==> tokens'[k] == tokens[k]))
  }

  lemma SettleSettles(w: World, a: seq<Pubkey>, env: Environment)
    requires ValidWorld(w) && RepayReady(w, a) && CanSettle(w, a, env)
    requires a[13] != a[7] && a[14] != a[10]
    ensures w.integrations[a[5]].state.AtomicSwapState?
    ensures SettledUp(w.tokens, Settle(w, a, env).tokens, a, w.integrations[a[5]].state, env)
  {
    hide ReservesValid, IntegrationsValid, VaultsOpen;
    SwapReservesDiffer(w, a[5], a[6], a[9]);
    IntegrationLimitValid(w, a[5]);
    VaultMint(w, a[6]);
    VaultMint(w, a[9]);
  }

  /** What a repay finds: the borrow's own pair and vaults, untouched since, and a fair price of an oracle that
      is the controller's and fresh. */
  ghost predicate Repayable(w: World, a: seq<Pubkey>, spent: nat, gained: nat)
    requires |a| >= 17
  {
    && a[1] in w.controllers && w.controllers[a[1]].status == AtomicSwapLock
    && a[5] in w.integrations && a[6] in w.reserves && a[9] in w.reserves && a[6] != a[9]
    && var i, rA, rB := w.integrations[a[5]], w.reserves[a[6]], w.reserves[a[9]];
    && i.controller == rA.controller == rB.controller == a[1]
    && i.config.AtomicSwapConfig? && i.config.inputToken == rA.mint && i.config.outputToken == rB.mint
    && rA.vault == a[7] && rA.mint == a[8] && rB.vault == a[10] && rB.mint == a[11]
    && i.state.AtomicSwapState? && i.state.amountBorrowed > 0
    && a[7] in w.tokens && w.tokens[a[7]].amount + i.state.amountBorrowed == i.state.lastBalanceA
    && a[10] in w.tokens && w.tokens[a[10]].amount == i.state.lastBalanceB
    && (forall b :: b in [rA.limit, rB.limit, i.limit] ==> b.lastTs == w.clock.ts && b.lastSlot == w.clock.slot)
    && i.config.oracle == a[12] && a[12] in w.oracles
    && w.oracles[a[12]].controller == a[1] && w.oracles[a[12]].lastUpdateSlot + i.config.maxStaleness >= w.clock.slot
    && SwapOutcome.FairExchange(w.oracles[a[12]], i.config, spent, gained)
  }

  /** A repay takes the refund and the proceeds into the vaults, tops the limits up with what arrived, unlocks
      the controller, forgets the loan, and records what was spent and gained. */
  lemma RepayMoves(w: World, c: Call, w': World)
    requires Ready(w, c) && Executes(w, c, w') && c.ix.data.disc == 16
    ensures c.IsRepay()
    ensures var a := c.ix.accounts;
            && |a| >= 17 && a[5] in w.integrations && a[6] in w.reserves && a[9] in w.reserves && a[1] in w.controllers
            && var i, rA, rB := w.integrations[a[5]], w.reserves[a[6]], w.reserves[a[9]];
            && i.state.AtomicSwapState?
            && (a[13] != a[7] && a[14] != a[10] ==> SettledUp(w.tokens, w'.tokens, a, i.state, c.env))
            && a[7] in w.tokens && a[10] in w.tokens && a[7] in w'.tokens && a[10] in w'.tokens
            && var returned, gained := w'.tokens[a[7]].amount - w.tokens[a[7]].amount,
                                       w'.tokens[a[10]].amount - w.tokens[a[10]].amount;
            && 0 <= returned && 0 <= gained
            && rA.lastBalance + returned <= U64_MAX && rB.lastBalance + gained <= U64_MAX
            && var spent := Max(i.state.amountBorrowed - returned, 0);
            && Repayable(w, a, spent, gained)
            && w' == w.(
                 tokens := w'.tokens,
                 controllers := w.controllers[a[1] := w.controllers[a[1]].(status := Active)],
                 reserves := w.reserves
                   [a[6] := rA.(limit := ToppedUp(rA.limit, returned), lastBalance := rA.lastBalance + returned)]
                   [a[9] := rB.(limit := ToppedUp(rB.limit, gained), lastBalance := rB.lastBalance + gained)],
                 integrations := w.integrations[a[5] := i.(limit := ToppedUp(i.limit, returned),
                                                           state := AtomicSwapState(0, 0, 0, 0, 0))],
                 log := w.log + [AccountingEvent(a[1], OfReserve(a[6]), rA.mint, Swap, spent, Debit),
                                 AccountingEvent(a[1], OfReserve(a[9]), rB.mint, Swap, gained, Credit)],
                 repayments := w.repayments + [Repayment(a[6], i.state.amountBorrowed, returned)])
  {
    hide ReservesValid, IntegrationsValid, VaultsOpen, RepayPost, Settle, CanSettle, SettledUp, Executes,
      SwapOutcome.FairExchange, PriceAccepted, WithInflow;
    var a := c.ix.accounts;
    RepayTaken(w, c, w');
    Processors.RepaySaves(w, a, c.env);
    SwapOutcome.SettleBalances(w, a, c.env);
    SwapOutcome.SettleSpends(w, a, c.env);
    var s := Settle(w, a, c.env);
    if a[13] != a[7] && a[14] != a[10] { SettleSettles(w, a, c.env); }
    InflowExact(w.reserves[a[6]].limit, s.returned);
    InflowExact(w.reserves[a[9]].limit, s.gained);
    InflowExact(w.integrations[a[5]].limit, s.returned);
    SwapOutcome.OraclePrecision(w, a[12]);
    SwapOutcome.AcceptedExchangeIsFair(w.oracles[a[12]], w.integrations[a[5]].config, s.spent, s.gained);
  }
}
