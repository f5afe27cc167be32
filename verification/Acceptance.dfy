/** Exactly when the calls that pay tokens out succeed, on rights, accounts, balances and levels. */
module Acceptance {
  import opened Words
  import opened RateLimit
  import opened Accounts
  import opened Introspection
  import opened Handlers
  import opened Machine
  import opened Rights
  import opened Movements
  import Administration
  import Bridge
  import Klend
  import Pricing
  import Processors
  import Swap
  import SwapOutcome

  ghost predicate Succeeds(w: World, c: Call)
    requires Ready(w, c)
  {
    exists w' :: Executes(w, c, w')
  }

  /** The vault can pay `amount` to another account of its mint, which the fee and the account's size allow;
      and both limits, brought up to date, have that much to give. */
  ghost predicate CanPay(w: World, key: Pubkey, through: Pubkey, to: Pubkey, amount: nat, received: nat)
    requires key in w.reserves && through in w.integrations
  {
    var r, i := w.reserves[key], w.integrations[through];
    && r.vault in w.tokens && to != r.vault
    && (to in w.tokens ==> w.tokens[to].mint == r.mint)
    && received <= amount <= w.tokens[r.vault].amount
    && (if to in w.tokens then w.tokens[to].amount else 0) + received <= U64_MAX
    && ValidLimit(r.limit, w.clock) && amount <= LevelAfterSync(r, w.clock, w.tokens[r.vault].amount)
    && ValidLimit(i.limit, w.clock) && amount <= Level(i.limit, w.clock.ts)
  }

  lemma CanPayExact(w: World, a: seq<Pubkey>, to: Pubkey, amount: u64, env: Environment)
    requires ValidWorld(w) && OuterOk(w, a) && amount > 0
    ensures var r := w.reserves[a[5]];
            CanPay(w, a[5], a[4], to, amount, env.received)
            <==> && CanSend(w, r.vault, to, r.mint, amount, env)
                 && CanPayOut(w, a, Sent(w, r.vault, to, r.mint, amount, env), amount)
  {
    hide ReservesValid, IntegrationsValid, SyncedReserve, Refreshed, LevelAfterSync, Level, CanPayOut;
    Processors.OuterLoads(w, a);
    ReserveLimitValid(w, a[5]);
    IntegrationLimitValid(w, a[4]);
    var r := w.reserves[a[5]];
    OutExact(r, w.clock, VaultBalance(w, a[5]), amount);
    ThroughExact(w.integrations[a[4]], w.clock, amount, w.integrations[a[4]].state);
    if CanSend(w, r.vault, to, r.mint, amount, env) {
      var tokens := Sent(w, r.vault, to, r.mint, amount, env);
      SendPays(w, r.vault, to, r.mint, amount, env);
      Processors.CanPayOutMeans(w, a, tokens, amount);
    }
  }

  // ---------- by kind of call ----------

  ghost predicate ExternalTransferFits(w: World, a: seq<Pubkey>, amount: nat, env: Environment) {
    && |a| >= 14 && a[6] == PROGRAM_ID && amount > 0 && a[4] in w.integrations && a[5] in w.reserves
    && w.integrations[a[4]].config == SplTokenExternalConfig(a[11], a[7], a[9], a[10])
    && w.reserves[a[5]].vault == a[8] && w.reserves[a[5]].mint == a[7]
    && CanPay(w, a[5], a[4], a[10], amount, env.received)
  }

  ghost predicate BridgePushFits(w: World, ixs: seq<Instruction>, cur: nat, a: seq<Pubkey>, amount: nat,
                                 env: Environment)
  {
    && |a| >= 14 && a[6] == PROGRAM_ID && amount > 0 && a[4] in w.integrations && a[5] in w.reserves
    && w.integrations[a[4]].config.LzBridgeConfig? && w.integrations[a[4]].config.mint == a[7]
    && w.integrations[a[4]].state == LzBridgeState(false)
    && w.reserves[a[5]].vault == a[8] && w.reserves[a[5]].mint == a[7]
    && |ixs| == cur + 3 && Bridge.SentOn(ixs[|ixs| - 2], w.integrations[a[4]].config, a, amount)
    && Bridge.Resets(ixs[|ixs| - 1], a[4])
    && CanPay(w, a[5], a[4], a[9], amount, env.received)
  }

  /** What the protocol may take from the vault is what both limits have to give. */
  ghost predicate CanTake(w: World, key: Pubkey, through: Pubkey, env: Environment)
    requires key in w.reserves && through in w.integrations
  {
    var r, i := w.reserves[key], w.integrations[through];
    && r.vault in w.tokens && r.vault in env.tokens
    && var taken := Max(w.tokens[r.vault].amount - env.tokens[r.vault].amount, 0);
    && ValidLimit(r.limit, w.clock) && taken <= LevelAfterSync(r, w.clock, w.tokens[r.vault].amount)
    && ValidLimit(i.limit, w.clock) && taken <= Level(i.limit, w.clock.ts)
  }

  ghost predicate DepositFits(w: World, a: seq<Pubkey>, amount: nat, env: Environment) {
    && OwnMarket(w, a, env.market) && a[6] == PROGRAM_ID && amount > 0
    && (env.market.obligation == Closed ==> |a| >= 27 && a[24] == env.market.userMetadata)
    && env.market.obligation != Open(true, false)
    && Klend.LendingBalance(env.before).Some? && Klend.LendingBalance(env.after).Some?
    && CanTake(w, a[5], a[4], env)
  }

  ghost predicate WithdrawalFits(w: World, a: seq<Pubkey>, amount: u64, env: Environment) {
    && OwnMarket(w, a, env.market) && a[6] == PROGRAM_ID && amount > 0 && env.market.obligation != Closed
    && Klend.LendingBalance(env.before).Some? && Klend.LendingBalance(env.after).Some?
    && env.before.reserve.LiquidityToCollateral(amount).Some?
  }

  ghost predicate LendingSyncFits(w: World, a: seq<Pubkey>, env: Environment) {
    && |a| >= 8 && a[3] in w.integrations && a[4] in w.reserves && !env.market.stale
    && var i, r := w.integrations[a[3]], w.reserves[a[4]];
    && i.controller == r.controller == a[0] && i.config.KaminoConfig?
    && i.config.obligation == a[7] && i.config.reserve == a[6] && i.config.mint == r.mint && r.vault == a[5]
    && (env.market.farm.RewardFarm? && |a| > 8 ==> OwnFarm(a, env.market))
    && Klend.LendingBalance(env.after).Some?
  }

  ghost predicate BorrowFits(w: World, ixs: seq<Instruction>, cur: nat, a: seq<Pubkey>, amount: nat, env: Environment) {
    && |a| >= 15 && a[14] == PROGRAM_ID && a[4] in w.integrations && a[5] in w.reserves && a[8] in w.reserves
    && var i, rA, rB := w.integrations[a[4]], w.reserves[a[5]], w.reserves[a[8]];
    && rA.vault == a[6] && rA.mint == a[7] && rB.vault == a[9]
    && i.config.AtomicSwapConfig? && i.config.inputToken == rA.mint && i.config.outputToken == rB.mint
    && i.state.AtomicSwapState? && i.state.amountBorrowed == 0 && w.clock.ts < i.config.expiryTimestamp
    && a[10] in w.tokens && a[11] in w.tokens && amount > 0
    && CanPay(w, a[5], a[4], a[10], amount, env.received)
    // the transaction: this borrow, nothing more of this program's, and the repay at the end
    && cur + 1 < |ixs| && ixs[cur].program == PROGRAM_ID && ixs[cur].data.Command? && ixs[cur].data.disc == 15
    && (forall k :: cur < k < |ixs| - 1 ==> ixs[k].program != PROGRAM_ID)
    && Swap.PaysBack(ixs[|ixs| - 1], a)
  }

  /** The refund and the proceeds can be paid, in this order, out of what the payers hold above what they held
      before the borrow; and the oracle's price accepts what is then spent and gained. */
  ghost predicate RepayFits(w: World, a: seq<Pubkey>, env: Environment) {
    && |a| >= 17 && a[5] in w.integrations && a[6] in w.reserves && a[9] in w.reserves
    && var i, rA, rB := w.integrations[a[5]], w.reserves[a[6]], w.reserves[a[9]];
    && i.controller == rA.controller == rB.controller == a[1]
    && rA.vault == a[7] && rA.mint == a[8] && rB.vault == a[10] && rB.mint == a[11]
    && i.config.AtomicSwapConfig? && i.config.inputToken == rA.mint && i.config.outputToken == rB.mint
    && i.state.AtomicSwapState? && i.state.amountBorrowed > 0
    && a[7] in w.tokens && w.tokens[a[7]].amount + i.state.amountBorrowed == i.state.lastBalanceA
    && a[10] in w.tokens && w.tokens[a[10]].amount == i.state.lastBalanceB
    && (forall b :: b in [rA.limit, rB.limit, i.limit] ==> b.lastTs == w.clock.ts && b.lastSlot == w.clock.slot)
    && a[13] in w.tokens && a[14] in w.tokens
    && var refund, proceeds := Max(w.tokens[a[13]].amount - i.state.recipientTokenAPre, 0),
                               w.tokens[a[14]].amount - i.state.recipientTokenBPre;
    && proceeds >= 0 && (refund > 0 ==> CanTransfer(w.tokens, a[13], a[7], a[8], refund, env.received))
    && var tokens := if refund > 0 then Transferred(w.tokens, a[13], a[7], refund, env.received) else w.tokens;
    && CanTransfer(tokens, a[14], a[10], a[11], proceeds, env.receivedB)
    && var tokens' := Transferred(tokens, a[14], a[10], proceeds, env.receivedB);
    && var returned, gained := tokens[a[7]].amount - w.tokens[a[7]].amount,
                               tokens'[a[10]].amount - w.tokens[a[10]].amount;
    && 0 <= returned && 0 <= gained && rA.lastBalance + returned <= U64_MAX && rB.lastBalance + gained <= U64_MAX
    && i.config.oracle == a[12] && a[12] in w.oracles
    && var o := w.oracles[a[12]];
    && o.controller == a[1] && o.lastUpdateSlot + i.config.maxStaleness >= w.clock.slot
    && var price :=
         if i.config.oraclePriceInverted then Pricing.GetPrice(o.value, o.precision, true) else Some(o.value);
    && price.Some?
    && Pricing.CheckSwapSlippage(Max(i.state.amountBorrowed - returned, 0), i.config.inputMintDecimals, gained,
                                 i.config.outputMintDecimals, i.config.maxSlippageBps, price.value,
                                 o.precision).Accepted?
  }

  lemma ExternalTransferAccepted(w: World, c: Call)
    requires Ready(w, c) && c.ix.data.disc == 10 && c.ix.data.args.SplTokenExternal?
    ensures Succeeds(w, c) <==>
              Authorized(w, c) && ExternalTransferFits(w, c.ix.accounts, c.ix.data.args.amount, c.env)
  {
    hide ReservesValid, IntegrationsValid, VaultsOpen, CanPay, CanSend, CanPayOut, Sent, PaidOut, Executes;
    var a, amount := c.ix.accounts, c.ix.data.args.amount;
    if OuterOk(w, a) && |a| >= 14 && amount > 0 { CanPayExact(w, a, a[10], amount, c.env); }
    if PushSplTokenExternalOk(w, a, amount, c.env) {
      PushSucceeds(w, c, PushSplTokenExternalPost(w, a, amount, c.env));
    }
    forall w' | Executes(w, c, w') ensures PushSplTokenExternalOk(w, a, amount, c.env) { SplPushTaken(w, c, w'); }
  }

  lemma PushSucceeds(w: World, c: Call, w': World)
    requires Ready(w, c) && c.ix.data.disc == 10
    requires PushSplTokenExternalStep(w, c, w') || PushLzBridgeStep(w, c, w') || PushKaminoStep(w, c, w')
    ensures Executes(w, c, w')
  {
    hide ValidWorld, PushSplTokenExternalStep, PushLzBridgeStep, PushKaminoStep;
  }

  lemma BridgePushAccepted(w: World, c: Call)
    requires Ready(w, c) && c.ix.data.disc == 10 && c.ix.data.args.LzBridge?
    ensures Succeeds(w, c) <==>
              Authorized(w, c) && BridgePushFits(w, c.ixs, c.cur, c.ix.accounts, c.ix.data.args.amount, c.env)
  {
    hide ReservesValid, IntegrationsValid, VaultsOpen, CanPay, CanSend, CanPayOut, Sent, PaidOut, Executes, SendFollows,
      Bridge.SentOn, Bridge.Resets;
    var a, amount := c.ix.accounts, c.ix.data.args.amount;
    if OuterOk(w, a) && |a| >= 14 && amount > 0 {
      CanPayExact(w, a, a[9], amount, c.env);
      StateOfIntegration(w, a[4]);
      if w.integrations[a[4]].config.LzBridgeConfig? {
        Bridge.SendIsSpelledOut(c.ixs, c.cur, a, w.integrations[a[4]].config, amount);
      }
    }
    if PushLzBridgeOk(w, c.ixs, c.cur, a, amount, c.env) {
      PushSucceeds(w, c, PushLzBridgePost(w, c.ixs, c.cur, a, amount, c.env));
    }
    forall w' | Executes(w, c, w') ensures PushLzBridgeOk(w, c.ixs, c.cur, a, amount, c.env) {
      LzPushTaken(w, c, w');
    }
  }

  lemma CanTakeExact(w: World, a: seq<Pubkey>, env: Environment)
    requires ValidWorld(w) && OuterOk(w, a) && VaultsOpen(w.reserves, env.tokens)
    ensures CanTake(w, a[5], a[4], env)
       <==> && TakenByCpi(w, a[5], env) <= Refreshed(w.integrations[a[4]].limit, w.clock).available
            && TakenByCpi(w, a[5], env) <= Synced(w, a[5]).reserves[a[5]].limit.available
  {
    hide ReservesValid, IntegrationsValid, SyncedReserve, SyncEvents, Refreshed, LevelAfterSync, Level;
    ReserveLimitValid(w, a[5]);
    IntegrationLimitValid(w, a[4]);
    OutExact(w.reserves[a[5]], w.clock, VaultBalance(w, a[5]), 0);
    ThroughExact(w.integrations[a[4]], w.clock, 0, w.integrations[a[4]].state);
  }

  lemma DepositGuards(w: World, c: Call)
    requires Ready(w, c) && c.ix.data.disc == 10 && c.ix.data.args.Kamino?
    ensures PushKaminoOk(w, c.ix.accounts, c.ix.data.args.amount, c.env)
       <==> Authorized(w, c) && DepositFits(w, c.ix.accounts, c.ix.data.args.amount, c.env)
  {
    hide ReservesValid, IntegrationsValid, VaultsOpen, Klend.LendingBalance, Synced, Refreshed, TakenByCpi, CanTake;
    if OuterOk(w, c.ix.accounts) { CanTakeExact(w, c.ix.accounts, c.env); }
  }

  lemma DepositAccepted(w: World, c: Call)
    requires Ready(w, c) && c.ix.data.disc == 10 && c.ix.data.args.Kamino?
    ensures Succeeds(w, c) <==> Authorized(w, c) && DepositFits(w, c.ix.accounts, c.ix.data.args.amount, c.env)
  {
    hide ValidWorld, PushKaminoPost, Executes, PushKaminoOk, DepositFits, Authorized;
    var a, amount := c.ix.accounts, c.ix.data.args.amount;
    DepositGuards(w, c);
    if PushKaminoOk(w, a, amount, c.env) { PushSucceeds(w, c, PushKaminoPost(w, a, amount, c.env)); }
    forall w' | Executes(w, c, w') ensures PushKaminoOk(w, a, amount, c.env) { DepositTaken(w, c, w'); }
  }

  lemma WithdrawalAccepted(w: World, c: Call)
    requires Ready(w, c) && c.ix.data.disc == 11
    ensures Succeeds(w, c) <==>
              && c.ix.data.args.Kamino?
              && Authorized(w, c) && WithdrawalFits(w, c.ix.accounts, c.ix.data.args.amount, c.env)
  {
    hide ValidWorld, PullKaminoPost, Klend.LendingBalance, Klend.KaminoReserve.LiquidityToCollateral;
    var a, args := c.ix.accounts, c.ix.data.args;
    if args.Kamino? && PullKaminoOk(w, a, args.amount, c.env) {
      assert Executes(w, c, PullKaminoPost(w, a, args.amount, c.env));
    }
  }

  lemma LendingSyncAccepted(w: World, c: Call)
    requires Ready(w, c) && c.ix.data.disc == 9
    ensures Succeeds(w, c) <==> Authorized(w, c) && LendingSyncFits(w, c.ix.accounts, c.env)
  {
    hide ValidWorld, SyncKaminoPost, Klend.LendingBalance;
    var a := c.ix.accounts;
    if SyncKaminoOk(w, a, c.env) { assert Executes(w, c, SyncKaminoPost(w, a, c.env)); }
  }

  lemma BorrowGuards(w: World, c: Call)
    requires Ready(w, c) && c.ix.data.disc == 15 && c.ix.data.args.Borrow?
    ensures BorrowOk(w, c.ixs, c.cur, c.ix.accounts, c.ix.data.args.amount, c.env)
       <==> Authorized(w, c) && BorrowFits(w, c.ixs, c.cur, c.ix.accounts, c.ix.data.args.amount, c.env)
  {
    hide ReservesValid, IntegrationsValid, VaultsOpen, SyncedReserve, Refreshed, LevelAfterSync, Level;
    var a := c.ix.accounts;
    if BorrowParties(w, a) {
      ReserveLimitValid(w, a[5]);
      VaultMint(w, a[5]);
      OutExact(w.reserves[a[5]], w.clock, VaultBalance(w, a[5]), 0);
      if a[4] in w.integrations {
        IntegrationLimitValid(w, a[4]);
        ThroughExact(w.integrations[a[4]], w.clock, 0, w.integrations[a[4]].state);
      }
    }
  }

  lemma BorrowAccepted(w: World, c: Call)
    requires Ready(w, c) && c.ix.data.disc == 15
    ensures Succeeds(w, c) <==>
              && c.ix.data.args.Borrow? && Authorized(w, c)
              && BorrowFits(w, c.ixs, c.cur, c.ix.accounts, c.ix.data.args.amount, c.env)
  {
    hide ValidWorld, BorrowOk, BorrowPost, BorrowFits, Authorized;
    var a, args := c.ix.accounts, c.ix.data.args;
    if args.Borrow? {
      BorrowGuards(w, c);
      if BorrowOk(w, c.ixs, c.cur, a, args.amount, c.env) {
        assert Executes(w, c, BorrowPost(w, c.ixs, c.cur, a, args.amount, c.env));
      }
    }
  }

  lemma RepayGuards(w: World, c: Call)
    requires Ready(w, c) && c.ix.data.disc == 16
    ensures RepayOk(w, c.ix.accounts, c.env) <==> Authorized(w, c) && RepayFits(w, c.ix.accounts, c.env)
  {
    hide ReservesValid, IntegrationsValid, VaultsOpen, Transferred, CanTransfer, Pricing.CheckSwapSlippage;
    var a := c.ix.accounts;
    if RepayReady(w, a) {
      StateOfIntegration(w, a[5]);
      if CanSettle(w, a, c.env) { SwapOutcome.SettleBalances(w, a, c.env); }
    }
  }

  lemma RepayAccepted(w: World, c: Call)
    requires Ready(w, c) && c.ix.data.disc == 16
    ensures Succeeds(w, c) <==> Authorized(w, c) && RepayFits(w, c.ix.accounts, c.env)
  {
    hide ValidWorld, RepayOk, RepayPost, RepayFits, Authorized;
    RepayGuards(w, c);
    if RepayOk(w, c.ix.accounts, c.env) { assert Executes(w, c, RepayPost(w, c.ix.accounts, c.env)); }
  }

  // ---------- administration ----------

  /** What the call's own data must fit, besides the access table. */
  ghost predicate AdministrationFits(w: World, c: Call)
    requires c.ix.data.Command? && c.cur < |c.ixs|
  {
    var a, args := c.ix.accounts, c.ix.data.args;
    match c.ix.data.disc
    case 0 => true
    case 1 =>
      && |a| >= 7 && a[5] == PROGRAM_ID && args.InitializeController? && args.initialStatus != AtomicSwapLock
      && a[4] !in w.permissions
    case 2 =>
      && |a| >= 5 && a[4] == PROGRAM_ID && args.ManageController? && a[0] in w.controllers
      && args.status != w.controllers[a[0]].status
      && (w.controllers[a[0]].status == Frozen ==> args.status == Active)
    case 3 =>
      && |a| >= 9 && a[7] == PROGRAM_ID && args.ManagePermission? && a[4] in w.permissions
      && (if a[6] in w.permissions then w.permissions[a[6]].controller == a[1] && w.permissions[a[6]].authority == a[5]
          else forall k :: k in w.permissions ==>
                 w.permissions[k].controller != a[1] || w.permissions[k].authority != a[5])
      && (a[6] == a[4] ==> args.permissionStatus == InForce && args.granted.managePermissions)
      && (w.permissions[a[4]].granted.managePermissions
          || (a[6] in w.permissions
              && !(w.permissions[a[6]].status == InForce && w.permissions[a[6]].granted.managePermissions)))
    case 4 =>
      && |a| >= 12 && a[10] == PROGRAM_ID && args.InitializeReserve? && a[5] !in w.reserves
      && (forall k :: k in w.reserves ==> w.reserves[k].controller != a[1] || w.reserves[k].mint != a[6])
      && (a[7] in w.tokens ==> w.tokens[a[7]].mint == a[6])
    case 5 =>
      |a| >= 6 && a[5] == PROGRAM_ID && args.ManageReserve? && a[4] in w.reserves && w.reserves[a[4]].controller == a[0]
    case 6 =>
      && |a| >= 8 && a[6] == PROGRAM_ID && args.InitializeIntegration? && a[5] !in w.integrations
      && (forall k :: k in w.integrations ==>
            w.integrations[k].controller != a[1] || w.integrations[k].hash != args.hash)
      && (args.config.AtomicSwapConfig? ==>
            && args.config.inputToken != args.config.outputToken
            && args.config.maxStaleness < w.clock.slot && w.clock.ts < args.config.expiryTimestamp
            && args.config.oracle in w.oracles
            && Administration.QuotesPair(w.oracles[args.config.oracle], a[1], args.config))
    case 7 =>
      && |a| >= 6 && a[5] == PROGRAM_ID && args.ManageIntegration?
      && a[4] in w.integrations && w.integrations[a[4]].controller == a[0]
    case 8 => |a| >= 4 && a[2] in w.reserves && w.reserves[a[2]].controller == a[0] && w.reserves[a[2]].vault == a[3]
    case 12 => |a| >= 7 && args.InitializeOracle? && a[5] !in w.oracles
    case 13 => |a| >= 6 && args.UpdateOracle?
    case 14 => |a| >= 2 && a[1] in w.oracles && w.oracles[a[1]].priceFeed == a[0]
    case 17 =>
      && |a| >= 3 && a[1] in w.integrations && w.integrations[a[1]].controller == a[0]
      && w.integrations[a[1]].config.LzBridgeConfig?
      && c.cur + 1 == |c.ixs| && c.ixs[c.cur].program == PROGRAM_ID
      && c.ixs[c.cur].data.Command? && c.ixs[c.cur].data.disc == 17
    case 18 => true
    case _ => false
  }

  lemma PermissionsAccepted(w: World, c: Call)
    requires Ready(w, c) && c.ix.data.disc in {1, 2, 3}
    ensures Succeeds(w, c) <==> Authorized(w, c) && AdministrationFits(w, c)
  {
    hide ValidWorld, InitializeControllerPost, ManageControllerPost, ManagePermissionPost;
    var a, args := c.ix.accounts, c.ix.data.args;
    match c.ix.data.disc
    case 1 => if InitializeControllerOk(w, a, args) { assert Executes(w, c, InitializeControllerPost(w, a, args)); }
    case 2 => if ManageControllerOk(w, a, args) { assert Executes(w, c, ManageControllerPost(w, a, args)); }
    case 3 => if ManagePermissionOk(w, a, args) { assert Executes(w, c, ManagePermissionPost(w, a, args)); }
  }

  lemma ReservesAccepted(w: World, c: Call)
    requires Ready(w, c) && c.ix.data.disc in {4, 5, 8}
    ensures Succeeds(w, c) <==> Authorized(w, c) && AdministrationFits(w, c)
  {
    hide ValidWorld, InitializeReservePost, ManageReservePost, SyncReservePost;
    var a, args := c.ix.accounts, c.ix.data.args;
    match c.ix.data.disc
    case 4 => if InitializeReserveOk(w, a, args) { assert Executes(w, c, InitializeReservePost(w, a, args)); }
    case 5 => if ManageReserveOk(w, a, args) { assert Executes(w, c, ManageReservePost(w, a, args)); }
    case 8 => if SyncReserveOk(w, a) { assert Executes(w, c, SyncReservePost(w, a)); }
  }

  lemma IntegrationsAccepted(w: World, c: Call)
    requires Ready(w, c) && c.ix.data.disc in {6, 7, 17}
    ensures Succeeds(w, c) <==> Authorized(w, c) && AdministrationFits(w, c)
  {
    hide ValidWorld, InitializeIntegrationPost, ManageIntegrationPost, ResetLzPushInFlightPost;
    var a, args := c.ix.accounts, c.ix.data.args;
    match c.ix.data.disc
    case 6 => if InitializeIntegrationOk(w, a, args) { assert Executes(w, c, InitializeIntegrationPost(w, a, args)); }
    case 7 => if ManageIntegrationOk(w, a, args) { assert Executes(w, c, ManageIntegrationPost(w, a, args)); }
    case 17 =>
      if |a| > 1 && a[1] in w.integrations { StateOfIntegration(w, a[1]); }
      if ResetLzPushInFlightOk(w, c.ixs, c.cur, a) {
        assert Executes(w, c, ResetLzPushInFlightPost(w, c.ixs, c.cur, a));
      }
  }

  lemma OraclesAccepted(w: World, c: Call)
    requires Ready(w, c) && c.ix.data.disc in {12, 13, 14}
    ensures Succeeds(w, c) <==> Authorized(w, c) && AdministrationFits(w, c)
  {
    hide ValidWorld, InitializeOraclePost, UpdateOraclePost, RefreshOraclePost;
    var a, args := c.ix.accounts, c.ix.data.args;
    match c.ix.data.disc
    case 12 => if InitializeOracleOk(w, a, args) { assert Executes(w, c, InitializeOraclePost(w, a, args)); }
    case 13 => if UpdateOracleOk(w, a, args) { assert Executes(w, c, UpdateOraclePost(w, a, args)); }
    case 14 => if RefreshOracleOk(w, a) { assert Executes(w, c, RefreshOraclePost(w, a, c.env)); }
  }

  lemma NothingAccepted(w: World, c: Call)
    requires Ready(w, c) && (c.ix.data.disc in {0, 18} || c.ix.data.disc > 18)
    ensures Succeeds(w, c) <==> Authorized(w, c) && AdministrationFits(w, c)
  {
    hide ValidWorld;
    if c.ix.data.disc in {0, 18} { assert Executes(w, c, w); }
  }

  // ---------- all calls ----------

  ghost predicate Fits(w: World, c: Call)
    requires Ready(w, c)
  {
    var a, args := c.ix.accounts, c.ix.data.args;
    match c.ix.data.disc
    case 9 => LendingSyncFits(w, a, c.env)
    case 10 =>
      (match args
       case SplTokenExternal(amount) => ExternalTransferFits(w, a, amount, c.env)
       case LzBridge(amount) => BridgePushFits(w, c.ixs, c.cur, a, amount, c.env)
       case Kamino(amount) => DepositFits(w, a, amount, c.env)
       case _ => false)
    case 11 => args.Kamino? && WithdrawalFits(w, a, args.amount, c.env)
    case 15 => args.Borrow? && BorrowFits(w, c.ixs, c.cur, a, args.amount, c.env)
    case 16 => RepayFits(w, a, c.env)
    case _ => AdministrationFits(w, c)
  }

  /** A call succeeds exactly when the access table allows it and its accounts, amounts and transaction fit. */
  lemma EveryCallAccepted(w: World, c: Call)
    requires Ready(w, c)
    ensures Succeeds(w, c) <==> Authorized(w, c) && Fits(w, c)
  {
    hide ValidWorld, Succeeds, Authorized, AdministrationFits, LendingSyncFits, ExternalTransferFits, BridgePushFits,
      DepositFits, WithdrawalFits, BorrowFits, RepayFits;
    match c.ix.data.disc
    case 1 => PermissionsAccepted(w, c);
    case 2 => PermissionsAccepted(w, c);
    case 3 => PermissionsAccepted(w, c);
    case 4 => ReservesAccepted(w, c);
    case 5 => ReservesAccepted(w, c);
    case 6 => IntegrationsAccepted(w, c);
    case 7 => IntegrationsAccepted(w, c);
    case 8 => ReservesAccepted(w, c);
    case 9 => LendingSyncAccepted(w, c);
    case 10 =>
      match c.ix.data.args {
        case SplTokenExternal(_) => ExternalTransferAccepted(w, c);
        case LzBridge(_) => BridgePushAccepted(w, c);
        case Kamino(_) => DepositAccepted(w, c);
        case _ => OtherPushRefused(w, c);
      }
    case 11 => WithdrawalAccepted(w, c);
    case 12 => OraclesAccepted(w, c);
    case 13 => OraclesAccepted(w, c);
    case 14 => OraclesAccepted(w, c);
    case 15 => BorrowAccepted(w, c);
    case 16 => RepayAccepted(w, c);
    case 17 => IntegrationsAccepted(w, c);
    case _ => NothingAccepted(w, c);
  }

  lemma OtherPushRefused(w: World, c: Call)
    requires Ready(w, c) && c.ix.data.disc == 10
    requires !c.ix.data.args.SplTokenExternal? && !c.ix.data.args.LzBridge? && !c.ix.data.args.Kamino?
    ensures !Succeeds(w, c)
  {
    hide ValidWorld;
  }

  /** No call succeeds but by the access table. */
  lemma EveryCallAuthorized(w: World, c: Call, w': World)
    requires Ready(w, c) && Executes(w, c, w')
    ensures Authorized(w, c)
  {
    hide ValidWorld, Executes, Authorized, Fits;
    EveryCallAccepted(w, c);
  }
}
