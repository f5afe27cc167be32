/** What a committed swap did to the vaults, the reserves and the rate limits. */
module SwapOutcome {
  import opened Words
  import opened RateLimit
  import opened Accounts
  import opened Introspection
  import opened Handlers
  import opened Machine
  import opened Transactions
  import opened Swap
  import opened Pricing

  // ---------- the two legs ----------

  /** What a borrow records: balances, the loan, and the reserves after their sync. */
  ghost predicate Lent(w: World, w': World, a: seq<Pubkey>, amount: u64)
    requires |a| >= 15
  {
    && a[4] in w.integrations && a[4] in w'.integrations && a[0] in w.controllers
    && a[5] in w.reserves && a[5] in w'.reserves && a[8] in w.reserves && a[8] in w'.reserves && a[5] != a[8]
    && a[6] in w.tokens && a[9] in w.tokens
    && var i := w.integrations[a[4]]; var i' := w'.integrations[a[4]];
    && i.controller == a[0] && i.config.AtomicSwapConfig? && i' == i.(limit := i'.limit, state := i'.state)
    && i'.state.AtomicSwapState? && i'.state.lastBalanceA == w.tokens[a[6]].amount
    && i'.state.lastBalanceB == w.tokens[a[9]].amount && i'.state.amountBorrowed == amount
    && i.limit.lastTs <= w.clock.ts && amount <= Refreshed(i.limit, w.clock).available
    && i'.limit == WithOutflow(Refreshed(i.limit, w.clock), amount)
    && var rA := w.reserves[a[5]]; var rB := w.reserves[a[8]];
    && rA.controller == a[0] && rB.controller == a[0] && rA.vault == a[6] && rB.vault == a[9]
    && i.config.inputToken == rA.mint && i.config.outputToken == rB.mint
    && rA.limit.lastTs <= w.clock.ts && rB.limit.lastTs <= w.clock.ts
    && var sA := SyncedReserve(rA, w.clock, w.tokens[a[6]].amount);
    && amount <= sA.limit.available && amount <= w.tokens[a[6]].amount
    && w'.reserves[a[5]] == sA.(limit := WithOutflow(sA.limit, amount), lastBalance := sA.lastBalance - amount)
    && w'.reserves[a[8]] == SyncedReserve(rB, w.clock, w.tokens[a[9]].amount)
  }

  lemma BorrowLends(w: World, c: Call, w': World)
    requires Ready(w, c) && BorrowStep(w, c, w')
    ensures Lent(w, w', c.ix.accounts, c.ix.data.args.amount)
  {
    hide Refreshed, WithOutflow, SyncEvents, ReservesValid, IntegrationsValid, RepayFollows, Transferred;
    var a := c.ix.accounts;
    SwapReservesDiffer(w, a[4], a[5], a[8]);
    ReserveLimitValid(w, a[5]);
    ReserveLimitValid(w, a[8]);
    IntegrationLimitValid(w, a[4]);
  }

  /** The swap's own controller's oracle, updated no more slots ago than the configuration allows. */
  ghost predicate OracleUsable(o: OracleData, config: IntegrationConfig, controller: Pubkey, clock: Clock)
    requires config.AtomicSwapConfig?
  {
    o.controller == controller && o.lastUpdateSlot + config.maxStaleness >= clock.slot
  }

  /** What a repay settles: `returned` more in vault A, `gained` more in vault B, both in the caches too. */
  ghost predicate Settled(w: World, w': World, a: seq<Pubkey>, returned: u64, gained: u64)
    requires |a| >= 17
  {
    && a[5] in w.integrations && a[6] in w.reserves && a[9] in w.reserves && a[6] != a[9]
    && a[5] in w'.integrations && a[6] in w'.reserves && a[9] in w'.reserves
    && a[7] in w.tokens && a[10] in w.tokens && a[7] in w'.tokens && a[10] in w'.tokens
    && var i := w.integrations[a[5]]; var rA := w.reserves[a[6]]; var rB := w.reserves[a[9]];
    && rA.controller == a[1] && rB.controller == a[1] && i.controller == a[1]
    && rA.vault == a[7] && rB.vault == a[10]
    && i.config.AtomicSwapConfig? && i.state.AtomicSwapState?
    && i.config.inputToken == rA.mint && i.config.outputToken == rB.mint && i.config.oracle == a[12]
    && w.tokens[a[7]].amount + i.state.amountBorrowed == i.state.lastBalanceA
    && w.tokens[a[10]].amount == i.state.lastBalanceB
    && w'.tokens[a[7]].amount == w.tokens[a[7]].amount + returned
    && w'.tokens[a[10]].amount == w.tokens[a[10]].amount + gained
    && w'.reserves[a[6]] == rA.(limit := WithInflow(rA.limit, returned), lastBalance := w'.reserves[a[6]].lastBalance)
    && w'.reserves[a[6]].lastBalance == rA.lastBalance + returned
    && w'.reserves[a[9]] == rB.(limit := WithInflow(rB.limit, gained), lastBalance := w'.reserves[a[9]].lastBalance)
    && w'.reserves[a[9]].lastBalance == rB.lastBalance + gained
    && w'.integrations[a[5]].limit == WithInflow(i.limit, returned)
    && a[12] in w.oracles && OracleUsable(w.oracles[a[12]], i.config, a[1], w.clock)
    && PriceAccepted(w.oracles[a[12]], i.config, SaturatingSub(i.state.amountBorrowed, returned), gained)
  }

  /** Only the two vaults' own legs change the two vaults, even when the payer is a vault itself. */
  lemma SettleBalances(w: World, a: seq<Pubkey>, env: Environment)
    requires ValidWorld(w) && RepayReady(w, a) && CanSettle(w, a, env)
    ensures a[6] != a[9]
    ensures var s := Settle(w, a, env);
            && a[7] in w.tokens && a[10] in w.tokens && a[7] in s.tokens && a[10] in s.tokens
            && s.tokens[a[7]].amount == w.tokens[a[7]].amount + s.returned
            && s.tokens[a[10]].amount == w.tokens[a[10]].amount + s.gained
            && s.gained >= 0
  {
    hide ReservesValid, IntegrationsValid, VaultsOpen;
    SwapReservesDiffer(w, a[5], a[6], a[9]);
    IntegrationLimitValid(w, a[5]);
    VaultMint(w, a[6]);
    VaultMint(w, a[9]);
  }

  lemma RepaySettles(w: World, c: Call, w': World)
    requires Ready(w, c) && RepayStep(w, c, w')
    ensures |c.ix.accounts| >= 17
    ensures exists returned, gained :: Settled(w, w', c.ix.accounts, returned, gained)
  {
    hide ReservesValid, IntegrationsValid, VaultsOpen, WithInflow, Settle, CanSettle, CheckSwapSlippage, GetPrice;
    var a := c.ix.accounts;
    SettleBalances(w, a, c.env);
    IntegrationLimitValid(w, a[5]);
    var s := Settle(w, a, c.env);
    assert s.spent == SaturatingSub(w.integrations[a[5]].state.amountBorrowed, s.returned) by {
      SettleSpends(w, a, c.env);
    }
    assert Settled(w, w', a, s.returned, s.gained);
  }

  lemma SettleSpends(w: World, a: seq<Pubkey>, env: Environment)
    requires ValidWorld(w) && RepayReady(w, a) && CanSettle(w, a, env) && w.integrations[a[5]].state.AtomicSwapState?
    ensures Settle(w, a, env).spent == SaturatingSub(w.integrations[a[5]].state.amountBorrowed, Settle(w, a, env).returned)
  {
    hide ReservesValid, IntegrationsValid, VaultsOpen, Transferred;
  }

  /** A repay against a price that is too old, or another controller's, does not execute. */
  lemma StalePriceRefused(w: World, c: Call, w': World)
    requires Ready(w, c) && c.ix.data.disc == 16
    requires var a := c.ix.accounts;
             && |a| >= 17 && a[5] in w.integrations && w.integrations[a[5]].config.AtomicSwapConfig?
             && var config := w.integrations[a[5]].config;
             && config.oracle in w.oracles
             && (w.oracles[config.oracle].lastUpdateSlot + config.maxStaleness < w.clock.slot
                 || w.oracles[config.oracle].controller != a[1])
    ensures !Executes(w, c, w')
  {
    hide ValidWorld, CanSettle, Settle, PriceAccepted;
    RepayNeedsFreshPrice(w, c, w');
  }

  lemma RepayNeedsFreshPrice(w: World, c: Call, w': World)
    requires Ready(w, c) && c.ix.data.disc == 16
    ensures Executes(w, c, w') ==>
              var a := c.ix.accounts;
              && |a| >= 17 && a[5] in w.integrations && w.integrations[a[5]].config.AtomicSwapConfig?
              && w.integrations[a[5]].config.oracle in w.oracles
              && OracleUsable(w.oracles[w.integrations[a[5]].config.oracle], w.integrations[a[5]].config, a[1], w.clock)
  {
    hide ValidWorld, CanSettle, Settle, PriceAccepted;
  }

  // ---------- the whole swap ----------

  /** From the world `w` before the borrow to the world `w'` after the repay: `amount` lent, `returned`
      of it handed back, `gained` received for the rest at a price the oracle `o` accepts. */
  ghost predicate Completed(w: World, w': World, a: seq<Pubkey>, amount: u64, returned: u64, gained: u64, o: OracleData)
    requires |a| >= 15
  {
    && a[4] in w.integrations && a[5] in w.reserves && a[8] in w.reserves
    && a[4] in w'.integrations && a[5] in w'.reserves && a[8] in w'.reserves && a[5] != a[8]
    && a[6] in w.tokens && a[9] in w.tokens && a[6] in w'.tokens && a[9] in w'.tokens
    && var i := w.integrations[a[4]]; var rA := w.reserves[a[5]]; var rB := w.reserves[a[8]];
    && rA.vault == a[6] && rB.vault == a[9]
    && rA.limit.lastTs <= w.clock.ts && rB.limit.lastTs <= w.clock.ts && i.limit.lastTs <= w.clock.ts
    // the vaults
    && w'.tokens[a[6]].amount == w.tokens[a[6]].amount - amount + returned
    && w'.tokens[a[9]].amount == w.tokens[a[9]].amount + gained
    // the cached balances
    && w'.reserves[a[5]].lastBalance == w'.tokens[a[6]].amount
    && w'.reserves[a[8]].lastBalance == w'.tokens[a[9]].amount
    // the limits
    && var limitA := SyncedReserve(rA, w.clock, w.tokens[a[6]].amount).limit;
    && amount <= limitA.available && amount <= Refreshed(i.limit, w.clock).available
    && w'.reserves[a[5]].limit == WithInflow(WithOutflow(limitA, amount), returned)
    && w'.reserves[a[8]].limit == WithInflow(SyncedReserve(rB, w.clock, w.tokens[a[9]].amount).limit, gained)
    && w'.integrations[a[4]].limit == WithInflow(WithOutflow(Refreshed(i.limit, w.clock), amount), returned)
    // the price
    && i.config.AtomicSwapConfig? && PriceAccepted(o, i.config, SaturatingSub(amount, returned), gained)
  }

  /** The repay finds the reserves and the integration of the borrow, as the borrow left them. */
  lemma LegsJoin(w: World, start: World, wn: World, w': World, a: seq<Pubkey>, b: seq<Pubkey>,
                 amount: u64, returned: u64, gained: u64)
    requires |a| >= 15 && |b| >= 17 && Lent(w, start, a, amount) && Settled(wn, w', b, returned, gained)
    requires ValidWorld(start) && ValidWorld(wn) && Held(start, wn, a[0]) && b[5] == a[4] && b[1] == a[0]
    ensures b[12] in wn.oracles && Completed(w, w', a, amount, returned, gained, wn.oracles[b[12]])
    ensures b[7] == a[6] && b[10] == a[9]
  {
    hide SyncedReserve, Refreshed, WithInflow, WithOutflow, PriceAccepted, IntegrationsValid, VaultsOpen, ValidLimit;
    SyncedMintAndVault(w.reserves[a[5]], w.clock, w.tokens[a[6]].amount);
    SyncedMintAndVault(w.reserves[a[8]], w.clock, w.tokens[a[9]].amount);
    SameReserve(wn, a[5], b[6]);
    SameReserve(wn, a[8], b[9]);
  }

  lemma SyncedMintAndVault(r: ReserveData, clock: Clock, balance: u64)
    requires r.limit.lastTs <= clock.ts
    ensures var s := SyncedReserve(r, clock, balance);
            s.controller == r.controller && s.mint == r.mint && s.vault == r.vault && s.lastBalance == balance
  {
  }

  lemma SameReserve(w: World, k: Pubkey, l: Pubkey)
    requires ValidWorld(w) && k in w.reserves && l in w.reserves
    requires w.reserves[k].controller == w.reserves[l].controller && w.reserves[k].mint == w.reserves[l].mint
    ensures k == l
  {
  }

  function BorrowAccounts(t: Transaction, b: nat): seq<Pubkey>
    requires t.BorrowsAt(b)
  {
    t.CallAt(b).ix.accounts
  }

  /** The price the swap of step `b` was held against, read in the transaction's last step. */
  ghost predicate SwapCompletes(t: Transaction, b: nat, amount: u64, returned: u64, gained: u64, o: OracleData)
    requires |t.worlds| == |t.steps| + 1 && t.BorrowsAt(b)
  {
    var a := BorrowAccounts(t, b);
    && |a| >= 15 && Completed(t.worlds[b], t.worlds[|t.steps|], a, amount, returned, gained, o)
    && var w := t.worlds[b]; var wn := t.worlds[|t.steps| - 1];
    && w.integrations[a[4]].config.oracle in wn.oracles && o == wn.oracles[w.integrations[a[4]].config.oracle]
    && OracleUsable(o, w.integrations[a[4]].config, a[0], wn.clock)
  }

  lemma BorrowLeg(t: Transaction, b: nat)
    requires t.Committed() && t.BorrowsAt(b)
    ensures var c := t.CallAt(b);
            && c.ix.data.Command? && c.ix.data.args.Borrow? && |c.ix.accounts| >= 15
            && ControllerOf(c) == c.ix.accounts[0] && IntegrationOf(c) == c.ix.accounts[4]
            && Lent(t.worlds[b], t.worlds[b + 1], c.ix.accounts, c.ix.data.args.amount)
  {
    hide ValidWorld, Transaction.Scheduled, Executes, Lent, RepayFollows, BorrowPost;
    assert t.Takes(b);
    BorrowTaken(t.worlds[b], t.CallAt(b), t.worlds[b + 1]);
    BorrowLends(t.worlds[b], t.CallAt(b), t.worlds[b + 1]);
  }

  ghost predicate SettledAt(t: Transaction, r: nat, returned: u64, gained: u64)
    requires |t.worlds| == |t.steps| + 1 && t.RepaysAt(r) && |t.CallAt(r).ix.accounts| >= 17
  {
    Settled(t.worlds[r], t.worlds[r + 1], t.CallAt(r).ix.accounts, returned, gained)
  }

  lemma RepayLeg(t: Transaction, r: nat)
    requires t.Committed() && t.RepaysAt(r)
    ensures var c := t.CallAt(r);
            && |c.ix.accounts| >= 17
            && ControllerOf(c) == c.ix.accounts[1] && IntegrationOf(c) == c.ix.accounts[5]
            && exists returned, gained :: SettledAt(t, r, returned, gained)
  {
    hide ValidWorld, Transaction.Scheduled, Executes, Settled, RepayStep;
    assert t.Takes(r);
    RepayTaken(t.worlds[r], t.CallAt(r), t.worlds[r + 1]);
    RepaySettles(t.worlds[r], t.CallAt(r), t.worlds[r + 1]);
    var returned: u64, gained: u64 :|
      Settled(t.worlds[r], t.worlds[r + 1], t.CallAt(r).ix.accounts, returned, gained);
    assert SettledAt(t, r, returned, gained);
  }

  /** Every committed swap completes, through whatever happens between its two ends. */
  lemma EverySwapCompletes(t: Transaction, b: nat)
    requires t.Committed() && ValidWorld(t.worlds[0]) && Quiet(t.worlds[0]) && t.BorrowsAt(b)
    ensures t.CallAt(b).ix.data.Command? && t.CallAt(b).ix.data.args.Borrow?
    ensures exists returned, gained, o :: SwapCompletes(t, b, t.CallAt(b).ix.data.args.amount, returned, gained, o)
  {
    hide ValidWorld, Transaction.Scheduled, Transaction.Takes, Quiet, Held, Completed, Lent, Settled, RepayFollows;
    SwapAt(t, b);
    var last := |t.steps| - 1;
    WorldsStayValid(t, b + 1);
    WorldsStayValid(t, last);
    BorrowLeg(t, b);
    RepayLeg(t, last);
    var a, r := t.CallAt(b).ix.accounts, t.CallAt(last).ix.accounts;
    var amount := t.CallAt(b).ix.data.args.amount;
    var returned: u64, gained: u64 :| SettledAt(t, last, returned, gained);
    LegsJoin(t.worlds[b], t.worlds[b + 1], t.worlds[last], t.worlds[last + 1], a, r, amount, returned, gained);
    OracleOfSwap(t.worlds[b], t.worlds[b + 1], t.worlds[last], t.worlds[last + 1], a, r, amount, returned, gained);
    assert SwapCompletes(t, b, amount, returned, gained, t.worlds[last].oracles[r[12]]);
  }

  lemma OracleOfSwap(w: World, start: World, wn: World, w': World, a: seq<Pubkey>, b: seq<Pubkey>,
                     amount: u64, returned: u64, gained: u64)
    requires |a| >= 15 && |b| >= 17 && Lent(w, start, a, amount) && Settled(wn, w', b, returned, gained)
    requires Held(start, wn, a[0]) && b[5] == a[4] && b[1] == a[0]
    ensures b[12] in wn.oracles && a[4] in w.integrations && w.integrations[a[4]].config.AtomicSwapConfig?
    ensures w.integrations[a[4]].config.oracle == b[12]
    ensures OracleUsable(wn.oracles[b[12]], w.integrations[a[4]].config, a[0], wn.clock)
  {
    hide SyncedReserve, Refreshed, WithInflow, WithOutflow, PriceAccepted;
  }

  // ---------- what that means ----------

  /** The exact rational tests of an exchange: against the price the oracle quotes, which for an inverted
      oracle is rounded up, and then against the exact inverse of its value as well. */
  ghost predicate FairExchange(o: OracleData, config: IntegrationConfig, spent: nat, gained: nat)
    requires config.AtomicSwapConfig?
  {
    if !config.oraclePriceInverted then
      FairSwap(spent, config.inputMintDecimals, gained, config.outputMintDecimals, config.maxSlippageBps,
               o.value, o.precision)
    else
      var price := GetPrice(o.value, o.precision, true);
      && price.Some?
      && FairSwap(spent, config.inputMintDecimals, gained, config.outputMintDecimals, config.maxSlippageBps,
                  price.value, o.precision)
      && (o.value > 0 ==>
            FairInverted(spent, config.inputMintDecimals, gained, config.outputMintDecimals, config.maxSlippageBps,
                         o.value, o.precision))
  }

  lemma AcceptedExchangeIsFair(o: OracleData, config: IntegrationConfig, spent: u64, gained: u64)
    requires config.AtomicSwapConfig? && o.precision == ORACLE_PRECISION
    ensures PriceAccepted(o, config, spent, gained) ==> FairExchange(o, config, spent, gained)
  {
    hide CheckSwapSlippage, FairSwap, FairInverted;
    var price := GetPrice(o.value, o.precision, config.oraclePriceInverted);
    if price.Some? {
      AcceptedIsFair(spent, config.inputMintDecimals, gained, config.outputMintDecimals, config.maxSlippageBps,
                     price.value, o.precision);
    }
    if config.oraclePriceInverted && o.value > 0 {
      AcceptedInvertedIsFair(spent, config.inputMintDecimals, gained, config.outputMintDecimals, config.maxSlippageBps,
                             o.value, o.precision);
    }
  }

  lemma OraclePrecision(w: World, key: Pubkey)
    requires ValidWorld(w) && key in w.oracles
    ensures w.oracles[key].precision == ORACLE_PRECISION
  {
  }

  /** End-to-end value. Either vault A loses nothing, or what it loses and what vault B gains pass the
      exact price tests, transfer fees and partial refunds included. */
  lemma SwapValue(t: Transaction, b: nat)
    requires t.Committed() && ValidWorld(t.worlds[0]) && Quiet(t.worlds[0]) && t.BorrowsAt(b)
    ensures exists o :: FairlySwapped(t, b, o)
  {
    hide ValidWorld, Transaction.Scheduled, Transaction.Takes, Quiet, SyncedReserve, Refreshed, WithInflow, WithOutflow,
      PriceAccepted, FairExchange;
    EverySwapCompletes(t, b);
    var returned: u64, gained: u64, o :| SwapCompletes(t, b, t.CallAt(b).ix.data.args.amount, returned, gained, o);
    var amount := t.CallAt(b).ix.data.args.amount;
    WorldsStayValid(t, |t.steps| - 1);
    OraclePrecision(t.worlds[|t.steps| - 1], t.worlds[b].integrations[BorrowAccounts(t, b)[4]].config.oracle);
    AcceptedExchangeIsFair(o, t.worlds[b].integrations[BorrowAccounts(t, b)[4]].config,
                           SaturatingSub(amount, returned), gained);
    assert FairlySwapped(t, b, o);
  }

  ghost predicate FairlySwapped(t: Transaction, b: nat, o: OracleData)
    requires |t.worlds| == |t.steps| + 1 && t.BorrowsAt(b)
  {
    var a := BorrowAccounts(t, b); var w := t.worlds[b]; var w' := t.worlds[|t.steps|];
    && |a| >= 15 && a[6] in w.tokens && a[6] in w'.tokens && a[9] in w.tokens && a[9] in w'.tokens
    && a[4] in w.integrations && w.integrations[a[4]].config.AtomicSwapConfig?
    && a[5] in w.reserves && w.reserves[a[5]].vault == a[6] && a[8] in w.reserves && w.reserves[a[8]].vault == a[9]
    && var config := w.integrations[a[4]].config; var wn := t.worlds[|t.steps| - 1];
    && config.oracle in wn.oracles && o == wn.oracles[config.oracle]
    && o.controller == a[0] && o.lastUpdateSlot + config.maxStaleness >= wn.clock.slot
    && var loss := w.tokens[a[6]].amount - w'.tokens[a[6]].amount;
    && var gain := w'.tokens[a[9]].amount - w.tokens[a[9]].amount;
    && gain >= 0 && (loss <= 0 || FairExchange(o, config, loss, gain))
  }

  /** Cache agreement. Both reserves end with the balance of their vaults, although a repay never syncs. */
  lemma SwapCachesAgree(t: Transaction, b: nat)
    requires t.Committed() && ValidWorld(t.worlds[0]) && Quiet(t.worlds[0]) && t.BorrowsAt(b)
    ensures var a := BorrowAccounts(t, b); var w := t.worlds[|t.steps|];
            && |a| >= 15 && a[5] in w.reserves && a[8] in w.reserves && a[6] in w.tokens && a[9] in w.tokens
            && w.reserves[a[5]].lastBalance == w.tokens[a[6]].amount
            && w.reserves[a[8]].lastBalance == w.tokens[a[9]].amount
  {
    hide ValidWorld, Transaction.Scheduled, Transaction.Takes, Quiet, SyncedReserve, Refreshed, WithInflow,
      WithOutflow, PriceAccepted;
    EverySwapCompletes(t, b);
  }

  /** Net rate-limit cost. With `returned` of `amount` handed back, reserve A and the integration have
      spent exactly the difference of what they had at the borrow, and the cap never bites; more than
      the loan handed back tops both up, to the cap at most. */
  lemma SwapNetCost(t: Transaction, b: nat)
    requires t.Committed() && ValidWorld(t.worlds[0]) && Quiet(t.worlds[0]) && t.BorrowsAt(b)
    ensures exists returned: u64 :: CostsTheDifference(t, b, returned)
  {
    hide ValidWorld, Transaction.Scheduled, Transaction.Takes, Quiet, SyncedReserve, Refreshed, PriceAccepted,
      WithInflow, WithOutflow, Costs;
    EverySwapCompletes(t, b);
    WorldsStayValid(t, b);
    var returned: u64, gained: u64, o :| SwapCompletes(t, b, t.CallAt(b).ix.data.args.amount, returned, gained, o);
    var a := BorrowAccounts(t, b);
    var w := t.worlds[b];
    var amount := t.CallAt(b).ix.data.args.amount;
    ReserveLimitValid(w, a[5]);
    IntegrationLimitValid(w, a[4]);
    SyncedReserveValid(w.reserves[a[5]], w.clock, w.tokens[a[6]].amount);
    FlowsValid(w.integrations[a[4]].limit, w.clock, 0);
    OutAndBack(SyncedReserve(w.reserves[a[5]], w.clock, w.tokens[a[6]].amount).limit, amount, returned);
    OutAndBack(Refreshed(w.integrations[a[4]].limit, w.clock), amount, returned);
    assert CostsTheDifference(t, b, returned);
  }

  ghost predicate CostsTheDifference(t: Transaction, b: nat, returned: u64)
    requires |t.worlds| == |t.steps| + 1 && t.BorrowsAt(b)
  {
    var a := BorrowAccounts(t, b); var w := t.worlds[b]; var w' := t.worlds[|t.steps|];
    && t.CallAt(b).ix.data.Command? && t.CallAt(b).ix.data.args.Borrow? && |a| >= 15
    && var amount := t.CallAt(b).ix.data.args.amount;
    && a[4] in w.integrations && a[4] in w'.integrations && a[5] in w.reserves && a[5] in w'.reserves
    && a[6] in w.tokens && a[6] in w'.tokens
    && w'.tokens[a[6]].amount == w.tokens[a[6]].amount - amount + returned
    && w.reserves[a[5]].limit.lastTs <= w.clock.ts && w.integrations[a[4]].limit.lastTs <= w.clock.ts
    && Costs(SyncedReserve(w.reserves[a[5]], w.clock, w.tokens[a[6]].amount).limit, w'.reserves[a[5]].limit, amount, returned)
    && Costs(Refreshed(w.integrations[a[4]].limit, w.clock), w'.integrations[a[4]].limit, amount, returned)
  }

  ghost predicate Costs(before: Bucket, after: Bucket, amount: u64, returned: u64) {
    && after == before.(available := after.available)
    && after.available as int ==
         if returned <= amount then before.available - (amount - returned)
         else Min(before.max, before.available + (returned - amount))
  }

  lemma OutAndBack(before: Bucket, amount: u64, returned: u64)
    requires before.Valid() && amount <= before.available
    ensures Costs(before, WithInflow(WithOutflow(before, amount), returned), amount, returned)
  {
    if returned <= amount {
      NetCost(before, amount, returned);
    }
  }
}
