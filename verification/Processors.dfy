/**
 The instruction processors as the program runs them. `Bank` holds the accounts, the token ledger, the
 clock and the event log; a processor loads the accounts it needs, works on them, and saves them. Each
 succeeds exactly when its `...Ok` holds, and then leaves the world its `...Post` describes.
 */
module Processors {
  import opened Words
  import opened RateLimit
  import opened Accounts
  import opened Introspection
  import opened Handlers
  import opened State
  import Klend
  import Machine
  import SwapOutcome
  import Pricing

  class Bank {
    var controllers: map<Pubkey, ControllerData>
    var permissions: map<Pubkey, PermissionData>
    var reserves: map<Pubkey, ReserveData>
    var integrations: map<Pubkey, IntegrationData>
    var oracles: map<Pubkey, OracleData>
    var tokens: Ledger
    var clock: Clock
    const log: EventLog
    ghost var repayments: seq<Repayment>

    constructor (w: World)
      ensures View() == w && fresh(log)
    {
      controllers, permissions, reserves, integrations := w.controllers, w.permissions, w.reserves, w.integrations;
      oracles, tokens, clock, repayments := w.oracles, w.tokens, w.clock, w.repayments;
      log := new EventLog(w.log);
    }

    ghost function View(): World
      reads this, log
    {
      World(controllers, permissions, reserves, integrations, oracles, tokens, clock, log.events, repayments)
    }

    /** The token program's checked transfer; `received` is what a transfer fee leaves of `amount`. */
    method TransferChecked(from: Pubkey, to: Pubkey, mint: Pubkey, amount: u64, received: u64) returns (r: Outcome)
      modifies this`tokens
      ensures r.Ok? <==> CanTransfer(old(tokens), from, to, mint, amount, received)
      ensures tokens == if r.Ok? then Transferred(old(tokens), from, to, amount, received) else old(tokens)
    {
      if from !in tokens || to !in tokens || tokens[from].mint != mint || tokens[to].mint != mint {
        return InvalidAccountData;
      }
      if received > amount || amount > tokens[from].amount { return InsufficientFunds; }
      if from != to {
        if tokens[to].amount + received > U64_MAX { return TokenProgramError; }
        tokens := tokens[from := tokens[from].(amount := tokens[from].amount - amount)];
        tokens := tokens[to := tokens[to].(amount := tokens[to].amount + received)];
      }
      return Ok;
    }

    /** The associated token program's idempotent creation. */
    method CreateIdempotent(account: Pubkey, mint: Pubkey)
      modifies this`tokens
      ensures tokens == WithAta(old(tokens), account, mint)
    {
      if account !in tokens { tokens := tokens[account := TokenAccount(mint, 0)]; }
    }

    // ---------- loading, working, and what to save ----------

    method CheckPermission(key: Pubkey, controller: Pubkey, authority: Pubkey) returns (r: Outcome)
      ensures r.Ok? <==> PermissionLoaded(View(), key, controller, authority)
    {
      if key !in permissions { return InvalidAccountData; }
      if permissions[key].authority != authority { return IncorrectAuthority; }
      if permissions[key].controller != controller { return ControllerDoesNotMatchAccountData; }
      return Ok;
    }

    /** Loads the controller, changes its status, and saves it. */
    method UpdateController(key: Pubkey, status: ControllerStatus) returns (r: Outcome)
      requires key in controllers
      modifies this`controllers
      ensures r.Ok? <==> old(controllers)[key].status != status
      ensures r.Ok? ==> controllers == old(controllers)[key := old(controllers)[key].(status := status)]
    {
      var controller := new Controller.Load(controllers[key]);
      r := controller.UpdateAndSave(status);
      if r.Ok? { controllers := controllers[key := controller.View()]; }
    }

    /** Loads the reserve and syncs it with its vault. */
    method SyncedWithVault(key: Pubkey) returns (reserve: ReserveData)
      requires key in reserves && reserves[key].vault in tokens && reserves[key].limit.lastTs <= clock.ts
      modifies log
      ensures reserve == SyncedReserve(reserves[key], clock, tokens[reserves[key].vault].amount)
      ensures log.events == old(log.events) + SyncEvents(key, reserves[key], tokens[reserves[key].vault].amount)
    {
      var loaded := new Reserve.Load(reserves[key]);
      var vault := loaded.vault;
      var r := loaded.SyncBalance(key, vault, tokens[vault].amount, loaded.controller, clock, log);
      reserve := loaded.View();
    }

    /** Loads the integration and refreshes its rate limit. */
    method RefreshedIntegration(key: Pubkey) returns (integration: IntegrationData)
      requires key in integrations && integrations[key].limit.lastTs <= clock.ts
      ensures integration == integrations[key].(limit := Refreshed(integrations[key].limit, clock))
    {
      var loaded := new Integration.Load(integrations[key]);
      loaded.RefreshRateLimit(clock);
      integration := loaded.View();
    }

    /** Records an outflow of `amount` with both rate limits. */
    method RecordOutflow(r0: ReserveData, i0: IntegrationData, amount: u64)
      returns (r: Outcome, reserve: ReserveData, integration: IntegrationData)
      ensures r.Ok? <==> && r0.limit.IsFresh(clock) && i0.limit.IsFresh(clock) && amount <= r0.lastBalance
                         && amount <= r0.limit.available && amount <= i0.limit.available
      ensures r.Ok? ==>
        && reserve == r0.(limit := WithOutflow(r0.limit, amount), lastBalance := r0.lastBalance - amount)
        && integration == i0.(limit := WithOutflow(i0.limit, amount))
    {
      reserve, integration := r0, i0;
      var workReserve := new Reserve.Load(r0);
      r := workReserve.UpdateForOutflow(clock, amount, false);
      if !r.Ok? { return; }
      var workIntegration := new Integration.Load(i0);
      r := workIntegration.UpdateRateLimitForOutflow(clock, amount);
      if !r.Ok? { return; }
      reserve, integration := workReserve.View(), workIntegration.View();
    }

    /** Records an inflow of `amount` with both rate limits. */
    method RecordInflow(r0: ReserveData, i0: IntegrationData, amount: u64)
      returns (r: Outcome, reserve: ReserveData, integration: IntegrationData)
      ensures r.Ok? <==> r0.limit.IsFresh(clock) && i0.limit.IsFresh(clock) && r0.lastBalance + amount <= U64_MAX
      ensures r.Ok? ==>
        && reserve == r0.(limit := WithInflow(r0.limit, amount), lastBalance := r0.lastBalance + amount)
        && integration == i0.(limit := WithInflow(i0.limit, amount))
    {
      reserve, integration := r0, i0;
      var workReserve := new Reserve.Load(r0);
      r := workReserve.UpdateForInflow(clock, amount);
      if !r.Ok? { return; }
      var workIntegration := new Integration.Load(i0);
      r := workIntegration.UpdateRateLimitForInflow(clock, amount);
      if !r.Ok? { return; }
      reserve, integration := workReserve.View(), workIntegration.View();
    }

    // ---------- atomic swap ----------

    method CheckBorrowParties(a: seq<Pubkey>) returns (r: Outcome)
      requires ValidWorld(View())
      ensures r.Ok? <==> BorrowParties(View(), a)
    {
      if |a| < 15 { return NotEnoughAccountKeys; }
      if a[14] != PROGRAM_ID { return IncorrectProgramId; }
      if a[0] !in controllers || controllers[a[0]].authority != a[1] { return InvalidControllerAuthority; }
      if !controllers[a[0]].status.Active? { return ControllerStatusDoesNotPermitAction; }
      r := CheckPermission(a[3], a[0], a[2]);
      if !r.Ok? { return; }
      if !permissions[a[3]].CanExecuteSwap() { return UnauthorizedAction; }
      if a[5] !in reserves || reserves[a[5]].controller != a[0] { return InvalidAccountData; }
      if reserves[a[5]].vault != a[6] || reserves[a[5]].mint != a[7] { return InvalidAccountData; }
      if !reserves[a[5]].status.InForce? { return ReserveStatusDoesNotPermitAction; }
      if a[8] !in reserves || reserves[a[8]].controller != a[0] { return InvalidAccountData; }
      if reserves[a[8]].vault != a[9] { return InvalidAccountData; }
      if !reserves[a[8]].status.InForce? { return ReserveStatusDoesNotPermitAction; }
      return Ok;
    }

    method CheckBorrowTerms(a: seq<Pubkey>, amount: u64) returns (r: Outcome)
      requires ValidWorld(View()) && BorrowParties(View(), a)
      ensures r.Ok? <==> BorrowTerms(View(), a, amount)
    {
      if a[4] !in integrations || integrations[a[4]].controller != a[0] { return InvalidAccountData; }
      var i := integrations[a[4]];
      if !i.status.InForce? { return IntegrationStatusDoesNotPermitAction; }
      if !i.config.AtomicSwapConfig? { return Invalid; }
      Machine.IntegrationLimitValid(View(), a[4]);
      if i.config.inputToken != reserves[a[5]].mint || i.config.outputToken != reserves[a[8]].mint {
        return InvalidAccountData;
      }
      if i.state.amountBorrowed != 0 { return SwapHasStarted; }
      if clock.ts >= i.config.expiryTimestamp { return IntegrationHasExpired; }
      if a[10] !in tokens || a[11] !in tokens { return InvalidAccountData; }
      if amount > tokens[a[6]].amount { return InsufficientFunds; }
      if amount == 0 { return InvalidArgument; }
      return Ok;
    }

    method ProcessAtomicSwapBorrow(ixs: seq<Instruction>, cur: nat, a: seq<Pubkey>, amount: u64, env: Environment)
      returns (r: Outcome)
      requires ValidWorld(View()) && cur < |ixs|
      modifies this, log
      ensures r.Ok? <==> BorrowOk(old(View()), ixs, cur, a, amount, env)
      ensures r.Ok? ==> View() == BorrowPost(old(View()), ixs, cur, a, amount, env)
    {
      hide Refreshed, WithOutflow, SyncedReserve, SyncEvents, RepayFollows, Transferred, CanTransfer, ValidWorld,
        BorrowParties, BorrowTerms, BorrowPost;
      ghost var w := View();
      r := CheckBorrowParties(a);
      if !r.Ok? { return; }
      PartiesLoad(w, a);
      var reserveA := SyncedWithVault(a[5]);
      var reserveB := SyncedWithVault(a[8]);
      TermsIgnoreLog(w, View(), a, amount);
      r := CheckBorrowTerms(a, amount);
      if !r.Ok? { return; }
      TermsLoad(w, a, amount);
      var integration := RefreshedIntegration(a[4]);
      integration := integration.(state := AtomicSwapState(tokens[a[6]].amount, tokens[a[9]].amount, amount,
                                                           tokens[a[10]].amount, tokens[a[11]].amount));
      r := TransferChecked(a[6], a[10], a[7], amount, env.received);
      if !r.Ok? { return; }
      r := VerifyRepayIxInTx(ixs, cur, a[4], a[10], a[11], a[6], a[9]);
      if !r.Ok? { return; }
      r, reserveA, integration := RecordOutflow(reserveA, integration, amount);
      if !r.Ok? { return; }
      reserves := reserves[a[5] := reserveA][a[8] := reserveB];
      integrations := integrations[a[4] := integration];
      r := UpdateController(a[0], AtomicSwapLock);
      BorrowSaves(w, ixs, cur, a, amount, env);
    }

    method CheckRepayReady(a: seq<Pubkey>) returns (r: Outcome)
      requires ValidWorld(View())
      ensures r.Ok? <==> RepayReady(View(), a)
    {
      if |a| < 17 { return NotEnoughAccountKeys; }
      r := CheckPermission(a[4], a[1], a[3]);
      if !r.Ok? { return; }
      if !permissions[a[4]].CanExecuteSwap() { return UnauthorizedAction; }
      if a[1] !in controllers || controllers[a[1]].authority != a[2] { return InvalidControllerAuthority; }
      if !controllers[a[1]].status.AtomicSwapLock? { return UnauthorizedAction; }
      if a[6] !in reserves || reserves[a[6]].controller != a[1] { return InvalidAccountData; }
      if reserves[a[6]].vault != a[7] || reserves[a[6]].mint != a[8] { return InvalidAccountData; }
      if a[9] !in reserves || reserves[a[9]].controller != a[1] { return InvalidAccountData; }
      if reserves[a[9]].vault != a[10] || reserves[a[9]].mint != a[11] { return InvalidAccountData; }
      if a[5] !in integrations || integrations[a[5]].controller != a[1] { return InvalidAccountData; }
      var i := integrations[a[5]];
      if !i.config.AtomicSwapConfig? { return Invalid; }
      Machine.IntegrationLimitValid(View(), a[5]);
      if i.config.inputToken != a[8] || i.config.outputToken != a[11] || i.config.oracle != a[12] {
        return InvalidAccountData;
      }
      if i.state.amountBorrowed == 0 { return SwapNotStarted; }
      if a[13] !in tokens || a[14] !in tokens { return InvalidAccountData; }
      if tokens[a[14]].amount < i.state.recipientTokenBPre { return Panicked; }
      if tokens[a[7]].amount + i.state.amountBorrowed != i.state.lastBalanceA { return InvalidSwapState; }
      if tokens[a[10]].amount != i.state.lastBalanceB { return InvalidSwapState; }
      return Ok;
    }

    /** Takes token A back from the payer, as far as it still has some, and token B as well. */
    method TakeRepayment(a: seq<Pubkey>, env: Environment) returns (r: Outcome, returned: u64, gained: u64)
      requires ValidWorld(View()) && RepayReady(View(), a)
      modifies this`tokens
      ensures r.Ok? <==> CanSettle(old(View()), a, env)
      ensures r.Ok? ==> var s := Settle(old(View()), a, env);
                        tokens == s.tokens && returned == s.returned && gained == s.gained
    {
      hide ReservesValid, IntegrationsValid, VaultsOpen, Transferred, CanTransfer;
      returned, gained := 0, 0;
      ghost var w := View();
      Machine.IntegrationLimitValid(w, a[5]);
      Machine.VaultMint(w, a[6]);
      Machine.VaultMint(w, a[9]);
      var state := integrations[a[5]].state;
      var excess := SaturatingSub(tokens[a[13]].amount, state.recipientTokenAPre);
      var amount := tokens[a[14]].amount - state.recipientTokenBPre;
      var vaultABefore, vaultBBefore := tokens[a[7]].amount, tokens[a[10]].amount;
      if excess > 0 {
        r := TransferChecked(a[13], a[7], a[8], excess, env.received);
        if !r.Ok? { return; }
      }
      assert tokens == WithARepaid(w, a, env);
      RepaidVaultA(w, a, env);
      if excess > 0 { returned := tokens[a[7]].amount - vaultABefore; }
      r := TransferChecked(a[14], a[10], a[11], amount, env.receivedB);
      if !r.Ok? { return; }
      SwapOutcome.SettleBalances(w, a, env);
      gained := tokens[a[10]].amount - vaultBBefore;
    }

    method CheckOraclePrice(key: Pubkey, controller: Pubkey, config: IntegrationConfig, spent: u64, gained: u64)
      returns (r: Outcome)
      requires config.AtomicSwapConfig?
      ensures r.Ok? <==> PriceAccepts(oracles, clock, key, controller, config, spent, gained)
      ensures r.Ok? ==> key in oracles && oracles[key].controller == controller
      ensures r.Ok? ==> oracles[key].lastUpdateSlot + config.maxStaleness >= clock.slot
    {
      if key !in oracles || oracles[key].controller != controller { return ControllerDoesNotMatchAccountData; }
      var o := oracles[key];
      if o.lastUpdateSlot < clock.slot - config.maxStaleness { return StaleOraclePrice; }
      var price := Pricing.GetPrice(o.value, o.precision, config.oraclePriceInverted);
      if price.None? { return Panicked; }
      match Pricing.CheckSwapSlippage(spent, config.inputMintDecimals, gained, config.outputMintDecimals,
                                      config.maxSlippageBps, price.value, o.precision)
      case Accepted => return Ok;
      case InsufficientFunds => return InsufficientFunds;
      case SlippageExceeded => return SlippageExceeded;
      case Panicked => return Panicked;
    }

    /** Credits both reserves and the integration, whose swap is over. */
    method RecordRepayment(a: seq<Pubkey>, returned: u64, gained: u64)
      returns (r: Outcome, reserveA: ReserveData, reserveB: ReserveData, integration: IntegrationData)
      requires |a| >= 17 && a[6] in reserves && a[9] in reserves && a[5] in integrations
      requires integrations[a[5]].state.AtomicSwapState?
      ensures r.Ok? <==>
        && reserves[a[6]].limit.IsFresh(clock) && reserves[a[9]].limit.IsFresh(clock)
        && integrations[a[5]].limit.IsFresh(clock)
        && reserves[a[6]].lastBalance + returned <= U64_MAX && reserves[a[9]].lastBalance + gained <= U64_MAX
      ensures r.Ok? ==>
        && var rA := reserves[a[6]]; var rB := reserves[a[9]]; var i := integrations[a[5]];
        && reserveA == rA.(limit := WithInflow(rA.limit, returned), lastBalance := rA.lastBalance + returned)
        && reserveB == rB.(limit := WithInflow(rB.limit, gained), lastBalance := rB.lastBalance + gained)
        && integration == i.(limit := WithInflow(i.limit, returned), state := NO_SWAP)
    {
      reserveA, reserveB, integration := reserves[a[6]], reserves[a[9]], integrations[a[5]];
      var workA := new Reserve.Load(reserveA);
      r := workA.UpdateForInflow(clock, returned);
      if !r.Ok? { return; }
      var workB := new Reserve.Load(reserveB);
      r := workB.UpdateForInflow(clock, gained);
      if !r.Ok? { return; }
      var workIntegration := new Integration.Load(integration);
      workIntegration.ResetSwap();
      r := workIntegration.UpdateRateLimitForInflow(clock, returned);
      if !r.Ok? { return; }
      reserveA, reserveB, integration := workA.View(), workB.View(), workIntegration.View();
    }

    method ProcessAtomicSwapRepay(a: seq<Pubkey>, env: Environment) returns (r: Outcome)
      requires ValidWorld(View())
      modifies this, log
      ensures r.Ok? <==> RepayOk(old(View()), a, env)
      ensures r.Ok? ==> View() == RepayPost(old(View()), a, env)
    {
      hide ValidWorld, RepayReady, CanSettle, Settle, PriceAccepts, WithInflow, RepayPost;
      ghost var w := View();
      r := CheckRepayReady(a);
      if !r.Ok? { return; }
      RepayLoads(w, a);
      var returned, gained;
      r, returned, gained := TakeRepayment(a, env);
      if !r.Ok? { return; }
      SettleLoads(w, a, env);
      var borrowed := integrations[a[5]].state.amountBorrowed;
      var spent := SaturatingSub(borrowed, returned);
      r := CheckOraclePrice(a[12], a[1], integrations[a[5]].config, spent, gained);
      if !r.Ok? { return; }
      var reserveA, reserveB, integration;
      r, reserveA, reserveB, integration := RecordRepayment(a, returned, gained);
      if !r.Ok? { return; }
      r := UpdateController(a[1], Active);
      reserves := reserves[a[6] := reserveA][a[9] := reserveB];
      integrations := integrations[a[5] := integration];
      log.Emit(AccountingEvent(a[1], OfReserve(a[6]), a[8], Swap, spent, Debit));
      log.Emit(AccountingEvent(a[1], OfReserve(a[9]), a[11], Swap, gained, Credit));
      repayments := repayments + [Repayment(a[6], borrowed, returned)];
      RepaySaves(w, a, env);
    }

    // ---------- pushes and pulls ----------

    method CheckOuter(a: seq<Pubkey>) returns (r: Outcome)
      ensures r.Ok? <==> OuterOk(View(), a)
    {
      if |a| < 7 { return NotEnoughAccountKeys; }
      if a[6] != PROGRAM_ID { return IncorrectProgramId; }
      if a[0] !in controllers || controllers[a[0]].authority != a[1] { return InvalidControllerAuthority; }
      var controller := new Controller.Load(controllers[a[0]]);
      if !controller.IsActive() { return ControllerStatusDoesNotPermitAction; }
      r := CheckPermission(a[3], a[0], a[2]);
      if !r.Ok? { return; }
      if !permissions[a[3]].status.InForce? { return PermissionStatusDoesNotPermitAction; }
      if a[4] !in integrations || integrations[a[4]].controller != a[0] { return InvalidAccountData; }
      if !integrations[a[4]].status.InForce? { return IntegrationStatusDoesNotPermitAction; }
      if a[5] !in reserves || reserves[a[5]].controller != a[0] { return InvalidAccountData; }
      if !reserves[a[5]].status.InForce? { return ReserveStatusDoesNotPermitAction; }
      return Ok;
    }

    /** Refreshes the integration, syncs the reserve, and transfers `amount` out of its vault. */
    method SyncAndSend(a: seq<Pubkey>, vault: Pubkey, to: Pubkey, mint: Pubkey, amount: u64, env: Environment)
      returns (r: Outcome, reserve: ReserveData, integration: IntegrationData)
      requires |a| >= 7 && a[4] in integrations && integrations[a[4]].limit.lastTs <= clock.ts
      requires a[5] in reserves && reserves[a[5]].vault == vault && vault in tokens
      requires reserves[a[5]].limit.lastTs <= clock.ts
      modifies this`tokens, log
      ensures r.Ok? <==> CanSend(old(View()), vault, to, mint, amount, env)
      ensures r.Ok? ==> tokens == Sent(old(View()), vault, to, mint, amount, env)
      ensures integration == integrations[a[4]].(limit := Refreshed(integrations[a[4]].limit, clock))
      ensures reserve == SyncedReserve(reserves[a[5]], clock, old(tokens)[vault].amount)
      ensures log.events == old(log.events) + SyncEvents(a[5], reserves[a[5]], old(tokens)[vault].amount)
    {
      hide Transferred, CanTransfer, Refreshed, SyncedReserve, SyncEvents;
      integration := RefreshedIntegration(a[4]);
      reserve := SyncedWithVault(a[5]);
      CreateIdempotent(to, mint);
      r := TransferChecked(vault, to, mint, amount, env.received);
    }

    /** Records what has left the vault on both sides, and saves. */
    method SaveOutflow(a: seq<Pubkey>, reserve0: ReserveData, integration0: IntegrationData, mint: Pubkey, delta: u64,
                       state: IntegrationState, action: AccountingAction) returns (r: Outcome)
      requires |a| >= 7
      modifies this`reserves, this`integrations, log
      ensures r.Ok? <==>
        && reserve0.limit.IsFresh(clock) && integration0.limit.IsFresh(clock) && delta <= reserve0.lastBalance
        && delta <= reserve0.limit.available && delta <= integration0.limit.available
      ensures r.Ok? ==>
        && reserves == old(reserves)[a[5] := reserve0.(limit := WithOutflow(reserve0.limit, delta),
                                                       lastBalance := reserve0.lastBalance - delta)]
        && integrations == old(integrations)[a[4] := integration0.(limit := WithOutflow(integration0.limit, delta),
                                                                   state := state)]
        && log.events == old(log.events)
             + [AccountingEvent(a[0], OfReserve(a[5]), mint, action, delta, Debit),
                AccountingEvent(a[0], OfIntegration(a[4]), mint, action, delta, Credit)]
    {
      hide WithOutflow;
      var reserve, integration;
      r, reserve, integration := RecordOutflow(reserve0, integration0, delta);
      if !r.Ok? { return; }
      reserves := reserves[a[5] := reserve];
      integrations := integrations[a[4] := integration.(state := state)];
      log.Emit(AccountingEvent(a[0], OfReserve(a[5]), mint, action, delta, Debit));
      log.Emit(AccountingEvent(a[0], OfIntegration(a[4]), mint, action, delta, Credit));
    }

    /** Syncs the reserve, transfers `amount` out of its vault, checks that exactly that has left it, and
        records the outflow on both sides. */
    method PayOut(a: seq<Pubkey>, vault: Pubkey, to: Pubkey, mint: Pubkey, amount: u64, state: IntegrationState,
                  action: AccountingAction, env: Environment) returns (r: Outcome)
      requires ValidWorld(View()) && OuterOk(View(), a)
      requires vault == reserves[a[5]].vault && mint == reserves[a[5]].mint
      modifies this, log
      ensures r.Ok? <==> && CanSend(old(View()), vault, to, mint, amount, env)
                         && CanPayOut(old(View()), a, Sent(old(View()), vault, to, mint, amount, env), amount)
      ensures r.Ok? ==>
        View() == PaidOut(old(View()), a, Sent(old(View()), vault, to, mint, amount, env), amount, state, action)
    {
      hide ValidWorld, Transferred, CanTransfer, CanSend, Sent, Refreshed, WithOutflow, SyncedReserve, SyncEvents,
        OuterOk, CanPayOut, PaidOut;
      ghost var w := View();
      OuterLoads(w, a);
      var reserve, integration;
      r, reserve, integration := SyncAndSend(a, vault, to, mint, amount, env);
      if !r.Ok? { return; }
      SentKeepsVault(w, a[5], to, amount, env);
      CanPayOutMeans(w, a, tokens, amount);
      if reserve.lastBalance < tokens[vault].amount { return Panicked; }
      var delta := reserve.lastBalance - tokens[vault].amount;
      if delta != amount { return InvalidArgument; }
      r := SaveOutflow(a, reserve, integration, mint, delta, state, action);
      if !r.Ok? { return; }
      PayOutSaves(w, a, tokens, amount, state, action);
    }

    method ProcessPushSplTokenExternal(a: seq<Pubkey>, amount: u64, env: Environment) returns (r: Outcome)
      requires ValidWorld(View())
      modifies this, log
      ensures r.Ok? <==> PushSplTokenExternalOk(old(View()), a, amount, env)
      ensures r.Ok? ==> View() == PushSplTokenExternalPost(old(View()), a, amount, env)
    {
      hide ReservesValid, IntegrationsValid, VaultsOpen, CanSend, CanPayOut, Sent, PaidOut;
      r := CheckOuter(a);
      if !r.Ok? { return; }
      if |a| < 14 { return NotEnoughAccountKeys; }
      if amount == 0 { return InvalidArgument; }
      if !permissions[a[3]].CanInvokeExternalTransfer() { return IncorrectAuthority; }
      if integrations[a[4]].config != SplTokenExternalConfig(a[11], a[7], a[9], a[10]) { return InvalidAccountData; }
      if a[8] != reserves[a[5]].vault || a[7] != reserves[a[5]].mint { return InvalidAccountData; }
      r := PayOut(a, a[8], a[10], a[7], amount, integrations[a[4]].state, ExternalTransfer, env);
    }

    method ProcessPushLzBridge(ixs: seq<Instruction>, cur: nat, a: seq<Pubkey>, amount: u64, env: Environment)
      returns (r: Outcome)
      requires ValidWorld(View()) && cur < |ixs|
      modifies this, log
      ensures r.Ok? <==> PushLzBridgeOk(old(View()), ixs, cur, a, amount, env)
      ensures r.Ok? ==> View() == PushLzBridgePost(old(View()), ixs, cur, a, amount, env)
    {
      hide ReservesValid, IntegrationsValid, VaultsOpen, CanSend, CanPayOut, Sent, PaidOut, SendFollows;
      r := CheckOuter(a);
      if !r.Ok? { return; }
      if |a| < 14 { return NotEnoughAccountKeys; }
      if amount == 0 { return InvalidArgument; }
      var i := integrations[a[4]];
      if !permissions[a[3]].CanReallocate() && !permissions[a[3]].CanLiquidate(i) { return IncorrectAuthority; }
      if !i.config.LzBridgeConfig? || a[7] != i.config.mint { return InvalidAccountData; }
      Machine.IntegrationLimitValid(View(), a[4]);
      if i.state.pushInFlight { return LZPushInFlight; }
      if a[8] != reserves[a[5]].vault || a[7] != reserves[a[5]].mint { return InvalidAccountData; }
      r := VerifySendIxInTx(ixs, cur, a[2], a[9], a[7], a[10], i.config, a[4], amount);
      if !r.Ok? { return; }
      r := PayOut(a, a[8], a[9], a[7], amount, LzBridgeState(true), BridgeSend, env);
    }

    method ProcessResetLzPushInFlight(ixs: seq<Instruction>, cur: nat, a: seq<Pubkey>) returns (r: Outcome)
      requires cur < |ixs|
      modifies this
      ensures r.Ok? <==> ResetLzPushInFlightOk(old(View()), ixs, cur, a)
      ensures r.Ok? ==> View() == ResetLzPushInFlightPost(old(View()), ixs, cur, a)
    {
      if |a| < 3 { return NotEnoughAccountKeys; }
      r := ValidateInstruction(ixs, cur);
      if !r.Ok? { return; }
      if a[1] !in integrations || integrations[a[1]].controller != a[0] { return InvalidAccountData; }
      var integration := new Integration.Load(integrations[a[1]]);
      if !integration.state.LzBridgeState? { return InvalidAccountData; }
      integration.state := LzBridgeState(false);
      integrations := integrations[a[1] := integration.View()];
      return Ok;
    }

    // ---------- Kamino ----------

    /** The event for a lending balance that moved by itself. */
    method EmitLendingBalanceSyncEvent(controller: Pubkey, key: Pubkey, mint: Pubkey, previous: u64, balance: u64)
      modifies log
      ensures log.events == old(log.events) + LendingSyncEvents(controller, key, mint, previous, balance)
    {
      if previous == balance { return; }
      var absDelta := if balance > previous then balance - previous else previous - balance;
      var direction := if balance > previous then Credit else Debit;
      log.Emit(AccountingEvent(controller, OfIntegration(key), mint, Sync, absDelta, direction));
    }

    method CheckKaminoAccounts(a: seq<Pubkey>) returns (r: Outcome)
      requires OuterOk(View(), a)
      ensures r.Ok? <==> KaminoAccountsMatch(View(), a)
    {
      if |a| < 23 { return NotEnoughAccountKeys; }
      if integrations[a[4]].config != KaminoConfig(a[15], a[9], a[10], a[8]) { return InvalidAccountData; }
      if a[7] != reserves[a[5]].vault || a[10] != reserves[a[5]].mint { return InvalidAccountData; }
      return Ok;
    }

    /** A deposit needs the right to reallocate; a withdrawal may also be a liquidation. */
    method CheckKamino(a: seq<Pubkey>, amount: u64, withdrawal: bool, market: LendingMarket) returns (r: Outcome)
      ensures r.Ok? <==>
        && OuterOk(View(), a) && amount > 0
        && (permissions[a[3]].CanReallocate() || (withdrawal && permissions[a[3]].CanLiquidate(integrations[a[4]])))
        && KaminoAccountsMatch(View(), a) && MarketAccountsMatch(a, market)
        && (if withdrawal then market.obligation.Open? else CanDeposit(a, market))
    {
      r := CheckOuter(a);
      if !r.Ok? { return; }
      if amount == 0 { return InvalidArgument; }
      if !permissions[a[3]].CanReallocate() && !(withdrawal && permissions[a[3]].CanLiquidate(integrations[a[4]])) {
        return IncorrectAuthority;
      }
      r := CheckKaminoAccounts(a);
      if !r.Ok? { return; }
      if a[14] != market.marketAuthority { return InvalidPda; }
      if a[20] != DEFAULT_PUBKEY && a[20] !in market.farmAccounts { return InvalidAccountData; }
      if a[19] != a[22] {
        if a[19] !in market.farmAccounts { return InvalidAccountData; }
        if a[19] != market.obligationFarm { return InvalidPda; }
      }
      match market.obligation {
        case Closed =>
          if withdrawal { return InvalidAccountData; }
          if |a| < 27 { return NotEnoughAccountKeys; }
          if a[24] != market.userMetadata { return InvalidPda; }
        case Open(full, holdsReserve) =>
          if !withdrawal && full && !holdsReserve { return InvalidAccountData; }
      }
    }

    /** Refreshes the integration, syncs the reserve, and reports what the lending position has earned. */
    method SyncForLending(key: Pubkey, reserveKey: Pubkey, controller: Pubkey, mint: Pubkey, before: u64)
      returns (reserve: ReserveData, integration: IntegrationData)
      requires key in integrations && integrations[key].limit.lastTs <= clock.ts && integrations[key].state.LendingState?
      requires reserveKey in reserves && reserves[reserveKey].vault in tokens && reserves[reserveKey].limit.lastTs <= clock.ts
      modifies log
      ensures integration == integrations[key].(limit := Refreshed(integrations[key].limit, clock))
      ensures reserve == SyncedReserve(reserves[reserveKey], clock, tokens[reserves[reserveKey].vault].amount)
      ensures log.events == old(log.events)
                            + SyncEvents(reserveKey, reserves[reserveKey], tokens[reserves[reserveKey].vault].amount)
                            + LendingSyncEvents(controller, key, mint, integrations[key].state.balance, before)
    {
      integration := RefreshedIntegration(key);
      reserve := SyncedWithVault(reserveKey);
      EmitLendingBalanceSyncEvent(controller, key, mint, integration.state.balance, before);
    }

    /** The deposit CPI leaves `env.tokens` and the position `env.after`. */
    method ProcessPushKamino(a: seq<Pubkey>, amount: u64, env: Environment) returns (r: Outcome)
      requires ValidWorld(View()) && VaultsOpen(reserves, env.tokens)
      modifies this, log
      ensures r.Ok? <==> PushKaminoOk(old(View()), a, amount, env)
      ensures r.Ok? ==> View() == PushKaminoPost(old(View()), a, amount, env)
    {
      hide ValidWorld, VaultsOpen, Refreshed, WithOutflow, SyncedReserve, SyncEvents, LendingSyncEvents, Klend.LendingBalance,
        PushKaminoPost, OuterOk, KaminoAccountsMatch, MarketAccountsMatch, CanDeposit;
      ghost var w := View();
      r := CheckKamino(a, amount, false, env.market);
      if !r.Ok? { return; }
      var before, after := Klend.LendingBalance(env.before), Klend.LendingBalance(env.after);
      if before.None? || after.None? { return Panicked; }
      OuterLoads(w, a);
      KaminoLoads(w, a, env);
      var vault := reserves[a[5]].vault;
      var reserve, integration := SyncForLending(a[4], a[5], a[0], a[10], before.value);
      var amountBefore := tokens[vault].amount;
      tokens := env.tokens;
      var amountDelta := SaturatingSub(amountBefore, tokens[vault].amount);
      log.Emit(AccountingEvent(a[0], OfIntegration(a[4]), a[10], Deposit, SaturatingSub(after.value, before.value), Credit));
      log.Emit(AccountingEvent(a[0], OfReserve(a[5]), a[10], Deposit, amountDelta, Debit));
      r, reserve, integration := RecordOutflow(reserve, integration.(state := LendingState(after.value)), amountDelta);
      if !r.Ok? { return; }
      reserves := reserves[a[5] := reserve];
      integrations := integrations[a[4] := integration];
      PushKaminoSaves(w, a, amount, env);
    }

    /** The withdrawal CPI leaves `env.tokens` and the position `env.after`. */
    method ProcessPullKamino(a: seq<Pubkey>, amount: u64, env: Environment) returns (r: Outcome)
      requires ValidWorld(View()) && VaultsOpen(reserves, env.tokens)
      modifies this, log
      ensures r.Ok? <==> PullKaminoOk(old(View()), a, amount, env)
      ensures r.Ok? ==> View() == PullKaminoPost(old(View()), a, amount, env)
    {
      hide ValidWorld, VaultsOpen, Refreshed, WithInflow, SyncedReserve, SyncEvents, LendingSyncEvents, Klend.LendingBalance,
        PullKaminoPost, OuterOk, KaminoAccountsMatch, MarketAccountsMatch, Klend.KaminoReserve.LiquidityToCollateral;
      ghost var w := View();
      r := CheckKamino(a, amount, true, env.market);
      if !r.Ok? { return; }
      var before, after := Klend.LendingBalance(env.before), Klend.LendingBalance(env.after);
      if before.None? || after.None? { return Panicked; }
      if env.before.reserve.LiquidityToCollateral(amount).None? { return Panicked; }
      OuterLoads(w, a);
      KaminoLoads(w, a, env);
      var vault := reserves[a[5]].vault;
      var reserve, integration := SyncForLending(a[4], a[5], a[0], a[10], before.value);
      var amountBefore := tokens[vault].amount;
      tokens := env.tokens;
      var amountDelta := SaturatingSub(tokens[vault].amount, amountBefore);
      log.Emit(AccountingEvent(a[0], OfIntegration(a[4]), a[10], Withdrawal, SaturatingSub(before.value, after.value), Debit));
      log.Emit(AccountingEvent(a[0], OfReserve(a[5]), a[10], Withdrawal, amountDelta, Credit));
      r, reserve, integration := RecordInflow(reserve, integration.(state := LendingState(after.value)), amountDelta);
      if !r.Ok? { return; }
      reserves := reserves[a[5] := reserve];
      integrations := integrations[a[4] := integration];
      PullKaminoSaves(w, a, amount, env);
    }

    method CheckSyncKamino(a: seq<Pubkey>) returns (r: Outcome)
      ensures r.Ok? <==> SyncKaminoAccounts(View(), a)
    {
      if |a| < 8 { return NotEnoughAccountKeys; }
      r := CheckControllerOpen(a[0], a[1]);
      if !r.Ok? { return; }
      if a[3] !in integrations || integrations[a[3]].controller != a[0] { return InvalidAccountData; }
      if !integrations[a[3]].config.KaminoConfig? { return InvalidArgument; }
      if a[4] !in reserves || reserves[a[4]].controller != a[0] { return InvalidAccountData; }
      var config := integrations[a[3]].config;
      if config.obligation != a[7] || config.reserve != a[6] || config.mint != reserves[a[4]].mint {
        return InvalidAccountData;
      }
      if a[5] != reserves[a[4]].vault { return InvalidAccountData; }
      return Ok;
    }

    method CheckControllerOpen(key: Pubkey, authority: Pubkey) returns (r: Outcome)
      ensures r.Ok? <==> ControllerOpen(View(), key, authority)
    {
      if key !in controllers || controllers[key].authority != authority { return InvalidControllerAuthority; }
      var controller := new Controller.Load(controllers[key]);
      if controller.IsFrozen() { return FrozenController; }
      if controller.IsAtomicSwapLocked() { return AtomicSwapLocked; }
      return Ok;
    }

    method CheckHarvest(a: seq<Pubkey>, market: LendingMarket) returns (r: Outcome)
      ensures r.Ok? <==> (Harvests(a, market) ==> HarvestAccountsMatch(a, market))
    {
      if market.farm.NoFarm? || |a| <= 8 { return Ok; }
      if |a| < 21 { return NotEnoughAccountKeys; }
      if a[8] !in market.farmAccounts || a[9] !in market.farmAccounts || a[13] !in market.farmAccounts {
        return InvalidAccountData;
      }
      if a[8] != market.obligationFarm || a[10] != market.farm.vault { return InvalidPda; }
      if a[11] != market.farm.treasury || a[12] != market.farm.vaultsAuthority { return InvalidPda; }
      if a[9] != market.farm.key || (a[15], a[17]) !in market.farm.rewards { return InvalidAccountData; }
      return Ok;
    }

    /** Harvests rewards, if any: those of the reserve's own mint arrive in its vault. */
    method Harvest(reserve0: ReserveData, integration0: IntegrationData, reserveKey: Pubkey, key: Pubkey,
                   controller: Pubkey, rewards: Option<Pubkey>, env: Environment)
      returns (r: Outcome, reserve: ReserveData, integration: IntegrationData)
      requires rewards.Some? ==> reserve0.vault in env.tokens
      requires reserve0.limit.IsFresh(clock) && integration0.limit.IsFresh(clock)
      modifies this`tokens, log
      ensures r.Ok?
      ensures tokens == if rewards.Some? then env.tokens else old(tokens)
      ensures var harvested := rewards.Some? && rewards.value == reserve0.mint;
              var added := if harvested then SaturatingSub(env.tokens[reserve0.vault].amount, reserve0.lastBalance) else 0;
              && reserve == (if harvested then reserve0.(limit := WithInflow(reserve0.limit, added),
                                                         lastBalance := reserve0.lastBalance + added) else reserve0)
              && integration == (if harvested then integration0.(limit := WithInflow(integration0.limit, added)) else integration0)
              && log.events == old(log.events) + HarvestEvents(controller, key, reserveKey, reserve0.mint, harvested, added)
    {
      r, reserve, integration := Ok, reserve0, integration0;
      if rewards.Some? {
        tokens := env.tokens;
        if rewards.value == reserve0.mint {
          var delta := SaturatingSub(tokens[reserve0.vault].amount, reserve0.lastBalance);
          log.Emit(AccountingEvent(controller, OfIntegration(key), reserve0.mint, Sync, delta, Credit));
          log.Emit(AccountingEvent(controller, OfIntegration(key), reserve0.mint, Withdrawal, delta, Debit));
          log.Emit(AccountingEvent(controller, OfReserve(reserveKey), reserve0.mint, Withdrawal, delta, Credit));
          r, reserve, integration := RecordInflow(reserve0, integration0, delta);
        }
      }
    }

    method ProcessSyncKamino(a: seq<Pubkey>, env: Environment) returns (r: Outcome)
      requires ValidWorld(View()) && VaultsOpen(reserves, env.tokens)
      modifies this, log
      ensures r.Ok? <==> SyncKaminoOk(old(View()), a, env)
      ensures r.Ok? ==> View() == SyncKaminoPost(old(View()), a, env)
    {
      hide ValidWorld, VaultsOpen, Refreshed, WithInflow, SyncedReserve, SyncEvents, LendingSyncEvents, HarvestEvents,
        Klend.LendingBalance, SyncKaminoPost, SyncKaminoAccounts, HarvestAccountsMatch;
      ghost var w := View();
      r := CheckSyncKamino(a);
      if !r.Ok? { return; }
      if env.market.stale { return InvalidAccountData; }
      r := CheckHarvest(a, env.market);
      if !r.Ok? { return; }
      var balance := Klend.LendingBalance(env.after);
      if balance.None? { return Panicked; }
      SyncKaminoLoads(w, a, env);
      var integration := RefreshedIntegration(a[3]);
      var reserve := SyncedWithVault(a[4]);
      r, reserve, integration := Harvest(reserve, integration, a[4], a[3], a[0], HarvestedMint(a, env.market), env);
      EmitLendingBalanceSyncEvent(a[0], a[3], reserve.mint, integration.state.balance, balance.value);
      integration := integration.(state := LendingState(balance.value));
      reserves := reserves[a[4] := reserve];
      integrations := integrations[a[3] := integration];
      SyncKaminoSaves(w, a, env);
    }

    // ---------- controllers and permissions ----------

    method ProcessManageController(a: seq<Pubkey>, args: Args) returns (r: Outcome)
      modifies this
      ensures r.Ok? <==> ManageControllerOk(old(View()), a, args)
      ensures r.Ok? ==> View() == ManageControllerPost(old(View()), a, args)
    {
      if |a| < 5 { return NotEnoughAccountKeys; }
      if a[4] != PROGRAM_ID { return IncorrectProgramId; }
      if !args.ManageController? { return InvalidInstructionData; }
      if a[0] !in controllers || controllers[a[0]].authority != a[1] { return InvalidControllerAuthority; }
      var controller := new Controller.Load(controllers[a[0]]);
      if controller.IsFrozen() && !args.status.Active? { return FrozenController; }
      r := CheckPermission(a[3], a[0], a[2]);
      if !r.Ok? { return; }
      match args.status {
        case Active => if !permissions[a[3]].CanUnfreezeController() { return UnauthorizedAction; }
        case PushPullFrozen => if !permissions[a[3]].CanFreezeController() { return UnauthorizedAction; }
        case Frozen => if !permissions[a[3]].CanFreezeController() { return UnauthorizedAction; }
        case AtomicSwapLock => return UnauthorizedAction;
      }
      r := controller.UpdateAndSave(args.status);
      if !r.Ok? { return; }
      controllers := controllers[a[0] := controller.View()];
    }

    /** A manager creates or rewrites a permission. */
    method ManagePermission(a: seq<Pubkey>, args: Args) returns (r: Outcome)
      requires |a| >= 9 && args.ManagePermission?
      modifies this`permissions
      ensures r.Ok? <==> if a[6] in old(permissions) then PermissionLoaded(old(View()), a[6], a[1], a[5])
                         else forall k :: k in old(permissions) ==> !PermissionLoaded(old(View()), k, a[1], a[5])
      ensures r.Ok? ==>
        permissions == old(permissions)[a[6] := PermissionData(a[1], a[5], args.permissionStatus, args.granted)]
    {
      if a[6] !in permissions {
        // the address of a permission is derived from its controller and authority
        if exists k | k in permissions :: permissions[k].controller == a[1] && permissions[k].authority == a[5] {
          return InvalidPda;
        }
        permissions := permissions[a[6] := PermissionData(a[1], a[5], args.permissionStatus, args.granted)];
        return Ok;
      }
      r := CheckPermission(a[6], a[1], a[5]);
      if !r.Ok? { return; }
      var permission := new Permission.Load(permissions[a[6]]);
      AllOrNothingGiven(args.granted, permission.granted);
      hide Given, CapabilityUpdate.Applied;
      permission.UpdateAndSave(Some(args.permissionStatus), Given(args.granted));
      permissions := permissions[a[6] := permission.View()];
    }

    /** A suspender suspends a permission that cannot manage others, and does nothing else. */
    method SuspendPermission(a: seq<Pubkey>, args: Args) returns (r: Outcome)
      requires |a| >= 9 && args.ManagePermission?
      modifies this`permissions
      ensures r.Ok? <==> && args.permissionStatus.Suspended? && PermissionLoaded(old(View()), a[6], a[1], a[5])
                         && !old(permissions)[a[6]].CanManagePermissions()
      ensures r.Ok? ==> permissions == old(permissions)[a[6] := old(permissions)[a[6]].(status := Suspended)]
    {
      if !args.permissionStatus.Suspended? { return UnauthorizedAction; }
      r := CheckPermission(a[6], a[1], a[5]);
      if !r.Ok? { return; }
      if permissions[a[6]].CanManagePermissions() { return UnauthorizedAction; }
      var permission := new Permission.Load(permissions[a[6]]);
      AllOrNothingGiven(args.granted, permission.granted);
      hide CapabilityUpdate.Applied;
      permission.UpdateAndSave(Some(args.permissionStatus), NOT_GIVEN);
      permissions := permissions[a[6] := permission.View()];
    }

    method ProcessManagePermission(a: seq<Pubkey>, args: Args) returns (r: Outcome)
      modifies this
      ensures r.Ok? <==> ManagePermissionOk(old(View()), a, args)
      ensures r.Ok? ==> View() == ManagePermissionPost(old(View()), a, args)
    {
      if |a| < 9 { return NotEnoughAccountKeys; }
      if a[7] != PROGRAM_ID { return IncorrectProgramId; }
      if !args.ManagePermission? { return InvalidInstructionData; }
      if a[6] == a[4] && (args.permissionStatus.Suspended? || !args.granted.managePermissions) {
        return InvalidPermission;
      }
      r := CheckControllerOpen(a[1], a[2]);
      if !r.Ok? { return; }
      r := CheckPermission(a[4], a[1], a[3]);
      if !r.Ok? { return; }
      if permissions[a[4]].CanManagePermissions() {
        r := ManagePermission(a, args);
      } else if permissions[a[4]].CanSuspendPermissions() {
        r := SuspendPermission(a, args);
      } else {
        return UnauthorizedAction;
      }
    }

    method ProcessInitializeController(a: seq<Pubkey>, args: Args) returns (r: Outcome)
      modifies this
      ensures r.Ok? <==> InitializeControllerOk(old(View()), a, args)
      ensures r.Ok? ==> View() == InitializeControllerPost(old(View()), a, args)
    {
      if |a| < 7 { return NotEnoughAccountKeys; }
      if a[5] != PROGRAM_ID { return IncorrectProgramId; }
      if !args.InitializeController? { return InvalidInstructionData; }
      if a[1] != KEEL_DEPLOYER_MSIG { return IncorrectAuthority; }
      if args.initialStatus.AtomicSwapLock? { return InvalidArgument; }
      if a[2] in controllers || a[4] in permissions { return InvalidAccountData; }
      controllers := controllers[a[2] := ControllerData(args.id, args.initialStatus, a[3])];
      permissions := permissions[a[4] := PermissionData(a[2], a[1], InForce, NO_CAPABILITIES.(managePermissions := true))];
      return Ok;
    }

    // ---------- reserves and integrations ----------

    method CheckManager(controller: Pubkey, controllerAuthority: Pubkey, authority: Pubkey, permission: Pubkey)
      returns (r: Outcome)
      ensures r.Ok? <==> ManagerOk(View(), controller, controllerAuthority, authority, permission)
    {
      r := CheckControllerOpen(controller, controllerAuthority);
      if !r.Ok? { return; }
      r := CheckPermission(permission, controller, authority);
      if !r.Ok? { return; }
      if !permissions[permission].CanManageReservesAndIntegrations() { return UnauthorizedAction; }
    }

    method ProcessInitializeReserve(a: seq<Pubkey>, args: Args) returns (r: Outcome)
      requires ValidWorld(View())
      modifies this, log
      ensures r.Ok? <==> InitializeReserveOk(old(View()), a, args)
      ensures r.Ok? ==> View() == InitializeReservePost(old(View()), a, args)
    {
      hide ValidWorld, SyncedReserve, SyncEvents;
      if |a| < 12 { return NotEnoughAccountKeys; }
      if a[10] != PROGRAM_ID { return IncorrectProgramId; }
      if !args.InitializeReserve? { return InvalidInstructionData; }
      r := CheckManager(a[1], a[2], a[3], a[4]);
      if !r.Ok? { return; }
      if a[5] in reserves { return InvalidAccountData; }
      // the address of a reserve is derived from its controller and mint
      if exists k | k in reserves :: reserves[k].controller == a[1] && reserves[k].mint == a[6] { return InvalidPda; }
      CreateIdempotent(a[7], a[6]);
      if tokens[a[7]].mint != a[6] { return InvalidAccountData; }
      var limit := Bucket(args.slope, args.max, args.max, 0, clock.ts, clock.slot);
      reserves := reserves[a[5] := ReserveData(a[1], a[6], a[7], args.reserveStatus, limit, 0)];
      var reserve := SyncedWithVault(a[5]);
      reserves := reserves[a[5] := reserve];
    }

    method ProcessManageReserve(a: seq<Pubkey>, args: Args) returns (r: Outcome)
      requires ValidWorld(View())
      modifies this
      ensures r.Ok? <==> ManageReserveOk(old(View()), a, args)
      ensures r.Ok? ==> View() == ManageReservePost(old(View()), a, args)
    {
      hide ReservesValid, IntegrationsValid, VaultsOpen, UpdatedLimit;
      if |a| < 6 { return NotEnoughAccountKeys; }
      if a[5] != PROGRAM_ID { return IncorrectProgramId; }
      if !args.ManageReserve? { return InvalidInstructionData; }
      r := CheckManager(a[0], a[1], a[2], a[3]);
      if !r.Ok? { return; }
      if a[4] !in reserves || reserves[a[4]].controller != a[0] { return InvalidAccountData; }
      Machine.ReserveLimitValid(View(), a[4]);
      var reserve := new Reserve.Load(reserves[a[4]]);
      reserve.Update(args.newReserveStatus, args.newSlope, args.newMax, clock);
      reserves := reserves[a[4] := reserve.View()];
    }

    method ProcessInitializeIntegration(a: seq<Pubkey>, args: Args) returns (r: Outcome)
      modifies this
      ensures r.Ok? <==> InitializeIntegrationOk(old(View()), a, args)
      ensures r.Ok? ==> View() == InitializeIntegrationPost(old(View()), a, args)
    {
      if |a| < 8 { return NotEnoughAccountKeys; }
      if a[6] != PROGRAM_ID { return IncorrectProgramId; }
      if !args.InitializeIntegration? { return InvalidInstructionData; }
      r := CheckManager(a[1], a[2], a[3], a[4]);
      if !r.Ok? { return; }
      if a[5] in integrations { return InvalidAccountData; }
      // the address of an integration is derived from its controller and the hash of its configuration
      if exists k | k in integrations :: integrations[k].controller == a[1] && integrations[k].hash == args.hash {
        return InvalidPda;
      }
      if args.config.AtomicSwapConfig? {
        if args.config.inputToken == args.config.outputToken { return InvalidAccountData; }
        if args.config.maxStaleness >= clock.slot || clock.ts >= args.config.expiryTimestamp {
          return InvalidInstructionData;
        }
        if args.config.oracle !in oracles || oracles[args.config.oracle].controller != a[1] {
          return ControllerDoesNotMatchAccountData;
        }
        if !Quotes(oracles[args.config.oracle], args.config) { return InvalidAccountData; }
      }
      var limit := Bucket(args.slope, args.max, args.max, 0, clock.ts, clock.slot);
      integrations := integrations[a[5] := IntegrationData(
        a[1], args.description, args.hash, args.integrationStatus, limit, args.config,
        StartingState(args.config), args.permitLiquidation)];
    }

    method ProcessManageIntegration(a: seq<Pubkey>, args: Args) returns (r: Outcome)
      requires ValidWorld(View())
      modifies this
      ensures r.Ok? <==> ManageIntegrationOk(old(View()), a, args)
      ensures r.Ok? ==> View() == ManageIntegrationPost(old(View()), a, args)
    {
      hide ReservesValid, IntegrationsValid, VaultsOpen, UpdatedLimit;
      if |a| < 6 { return NotEnoughAccountKeys; }
      if a[5] != PROGRAM_ID { return IncorrectProgramId; }
      if !args.ManageIntegration? { return InvalidInstructionData; }
      r := CheckManager(a[0], a[1], a[2], a[3]);
      if !r.Ok? { return; }
      if a[4] !in integrations || integrations[a[4]].controller != a[0] { return InvalidAccountData; }
      Machine.IntegrationLimitValid(View(), a[4]);
      var integration := new Integration.Load(integrations[a[4]]);
      integration.UpdateAndSave(args.newStatus, args.newDescription, args.newSlope, args.newMax, clock);
      integrations := integrations[a[4] := integration.View()];
    }

    method ProcessSyncReserve(a: seq<Pubkey>) returns (r: Outcome)
      requires ValidWorld(View())
      modifies this, log
      ensures r.Ok? <==> SyncReserveOk(old(View()), a)
      ensures r.Ok? ==> View() == SyncReservePost(old(View()), a)
    {
      hide ReservesValid, IntegrationsValid, VaultsOpen, SyncedReserve, SyncEvents;
      if |a| < 4 { return NotEnoughAccountKeys; }
      r := CheckControllerOpen(a[0], a[1]);
      if !r.Ok? { return; }
      if a[2] !in reserves || reserves[a[2]].controller != a[0] { return InvalidAccountData; }
      if a[3] != reserves[a[2]].vault { return InvalidAccountData; }
      Machine.ReserveLimitValid(View(), a[2]);
      var reserve := SyncedWithVault(a[2]);
      reserves := reserves[a[2] := reserve];
    }

    // ---------- oracles ----------

    method ProcessInitializeOracle(a: seq<Pubkey>, args: Args) returns (r: Outcome)
      modifies this
      ensures r.Ok? <==> InitializeOracleOk(old(View()), a, args)
      ensures r.Ok? ==> View() == InitializeOraclePost(old(View()), a, args)
    {
      if |a| < 7 { return NotEnoughAccountKeys; }
      if !args.InitializeOracle? { return InvalidInstructionData; }
      r := CheckControllerOpen(a[1], a[2]);
      if !r.Ok? { return; }
      if a[5] in oracles { return InvalidAccountData; }
      oracles := oracles[a[5] := OracleData(a[1], a[3], args.baseMint, args.quoteMint, a[4], ORACLE_PRECISION, 0, 0)];
    }

    method ProcessUpdateOracle(a: seq<Pubkey>, args: Args) returns (r: Outcome)
      modifies this
      ensures r.Ok? <==> UpdateOracleOk(old(View()), a, args)
      ensures r.Ok? ==> View() == UpdateOraclePost(old(View()), a, args)
    {
      if |a| < 6 { return NotEnoughAccountKeys; }
      if !args.UpdateOracle? { return InvalidInstructionData; }
      r := CheckControllerOpen(a[0], a[1]);
      if !r.Ok? { return; }
      if a[4] !in oracles || oracles[a[4]].controller != a[0] { return ControllerDoesNotMatchAccountData; }
      if oracles[a[4]].authority != a[2] { return IncorrectAuthority; }
      var oracle := oracles[a[4]];
      if args.replaceFeed {
        oracle := oracle.(priceFeed := a[3], value := 0, precision := ORACLE_PRECISION, lastUpdateSlot := 0);
      }
      if a[5] != PROGRAM_ID { oracle := oracle.(authority := a[5]); }
      oracles := oracles[a[4] := oracle];
    }

    method ProcessRefreshOracle(a: seq<Pubkey>, env: Environment) returns (r: Outcome)
      modifies this
      ensures r.Ok? <==> RefreshOracleOk(old(View()), a)
      ensures r.Ok? ==> View() == RefreshOraclePost(old(View()), a, env)
    {
      if |a| < 2 { return NotEnoughAccountKeys; }
      if a[1] !in oracles || a[0] != oracles[a[1]].priceFeed { return InvalidAccountData; }
      oracles := oracles[a[1] := oracles[a[1]].(value := env.feedValue, lastUpdateSlot := env.feedSlot)];
      return Ok;
    }

    // ---------- dispatch ----------

    method ProcessPush(c: Machine.Call) returns (r: Outcome)
      requires Machine.Ready(View(), c) && c.Disc() == PUSH_DISC
      modifies this, log
      ensures r.Ok? ==> Machine.Executes(old(View()), c, View())
      ensures !r.Ok? ==> forall w' :: !Machine.Executes(old(View()), c, w')
    {
      hide ValidWorld, PushSplTokenExternalOk, PushSplTokenExternalPost, PushLzBridgeOk, PushLzBridgePost,
        PushKaminoOk, PushKaminoPost;
      var a := c.ix.accounts;
      match c.ix.data.args
      case SplTokenExternal(amount) => r := ProcessPushSplTokenExternal(a, amount, c.env);
      case LzBridge(amount) => r := ProcessPushLzBridge(c.ixs, c.cur, a, amount, c.env);
      case Kamino(amount) => r := ProcessPushKamino(a, amount, c.env);
      case _ => return InvalidInstructionData;
    }

    method ProcessAdministration(c: Machine.Call) returns (r: Outcome)
      requires Machine.Ready(View(), c)
      modifies this, log
      requires c.Disc() < 8
      ensures r.Ok? ==> Machine.Executes(old(View()), c, View())
      ensures !r.Ok? ==> forall w' :: !Machine.Executes(old(View()), c, w')
    {
      var a, args := c.ix.accounts, c.ix.data.args;
      match c.ix.data.disc
      case 0 => return Ok;
      case 1 => r := ProcessInitializeController(a, args);
      case 2 => r := ProcessManageController(a, args);
      case 3 => r := ProcessManagePermission(a, args);
      case 4 => r := ProcessInitializeReserve(a, args);
      case 5 => r := ProcessManageReserve(a, args);
      case 6 => r := ProcessInitializeIntegration(a, args);
      case 7 => r := ProcessManageIntegration(a, args);
      case _ => return InvalidInstructionData;
    }

    method ProcessOperation(c: Machine.Call) returns (r: Outcome)
      requires Machine.Ready(View(), c)
      modifies this, log
      requires c.Disc() >= 8
      ensures r.Ok? ==> Machine.Executes(old(View()), c, View())
      ensures !r.Ok? ==> forall w' :: !Machine.Executes(old(View()), c, w')
    {
      var a, args := c.ix.accounts, c.ix.data.args;
      match c.ix.data.disc
      case 8 => r := ProcessSyncReserve(a);
      case 9 => r := ProcessSyncKamino(a, c.env);
      case 10 => r := ProcessPush(c);
      case 11 =>
        if !args.Kamino? { return InvalidArgument; }
        r := ProcessPullKamino(a, args.amount, c.env);
      case 12 => r := ProcessInitializeOracle(a, args);
      case 13 => r := ProcessUpdateOracle(a, args);
      case 14 => r := ProcessRefreshOracle(a, c.env);
      case 15 =>
        if !args.Borrow? { return InvalidInstructionData; }
        r := ProcessAtomicSwapBorrow(c.ixs, c.cur, a, args.amount, c.env);
      case 16 => r := ProcessAtomicSwapRepay(a, c.env);
      case 17 => r := ProcessResetLzPushInFlight(c.ixs, c.cur, a);
      case 18 => return Ok;
      case _ => return InvalidInstructionData;
    }

    /** One invocation. What fails leaves no trace: the runtime undoes it. */
    method Invoke(c: Machine.Call) returns (r: Outcome)
      requires Machine.Ready(View(), c)
      modifies this, log
      ensures r.Ok? ==> Machine.Executes(old(View()), c, View()) && ValidWorld(View())
      ensures !r.Ok? ==> View() == old(View()) && forall w' :: !Machine.Executes(old(View()), c, w')
    {
      var controllers0, permissions0, reserves0, integrations0 := controllers, permissions, reserves, integrations;
      var oracles0, tokens0, clock0, events0 := oracles, tokens, clock, log.events;
      ghost var repayments0 := repayments;
      if c.ix.data.disc < 8 {
        r := ProcessAdministration(c);
      } else {
        r := ProcessOperation(c);
      }
      if r.Ok? {
        Machine.ExecutesOk(old(View()), c, View());
      } else {
        controllers, permissions, reserves, integrations := controllers0, permissions0, reserves0, integrations0;
        oracles, tokens, clock, repayments := oracles0, tokens0, clock0, repayments0;
        log.events := events0;
      }
    }
  }

  /** What the checks on a borrow's parties leave to be relied on. */
  lemma PartiesLoad(w: World, a: seq<Pubkey>)
    requires ValidWorld(w) && BorrowParties(w, a)
    ensures |a| >= 15 && a[0] in w.controllers && w.controllers[a[0]].status.Active?
    ensures a[5] in w.reserves && a[8] in w.reserves
    ensures a[6] in w.tokens && a[9] in w.tokens
    ensures w.reserves[a[5]].vault == a[6] && w.reserves[a[5]].controller == a[0]
    ensures w.reserves[a[8]].vault == a[9] && w.reserves[a[8]].controller == a[0]
    ensures w.reserves[a[5]].limit.lastTs <= w.clock.ts && w.reserves[a[8]].limit.lastTs <= w.clock.ts
    ensures SyncedReserve(w.reserves[a[5]], w.clock, w.tokens[a[6]].amount).limit.IsFresh(w.clock)
  {
    hide ReservesValid, IntegrationsValid, VaultsOpen, SyncedReserve;
    Machine.ReserveLimitValid(w, a[5]);
    Machine.ReserveLimitValid(w, a[8]);
    Machine.SyncedReserveValid(w.reserves[a[5]], w.clock, w.tokens[a[6]].amount);
  }

  lemma TermsIgnoreLog(w: World, w': World, a: seq<Pubkey>, amount: u64)
    requires ValidWorld(w) && w' == w.(log := w'.log) && BorrowParties(w, a)
    ensures ValidWorld(w') && BorrowParties(w', a) && (BorrowTerms(w', a, amount) <==> BorrowTerms(w, a, amount))
  {
    hide ReservesValid, IntegrationsValid, VaultsOpen;
  }

  lemma TermsLoad(w: World, a: seq<Pubkey>, amount: u64)
    requires ValidWorld(w) && BorrowParties(w, a) && BorrowTerms(w, a, amount)
    ensures a[4] in w.integrations && a[5] != a[8] && a[10] in w.tokens && a[11] in w.tokens
    ensures a[6] in w.tokens && amount <= w.tokens[a[6]].amount
    ensures w.integrations[a[4]].limit.lastTs <= w.clock.ts
    ensures Refreshed(w.integrations[a[4]].limit, w.clock).IsFresh(w.clock)
  {
    hide ReservesValid, IntegrationsValid, VaultsOpen, Refreshed;
    Machine.IntegrationLimitValid(w, a[4]);
    Machine.SwapReservesDiffer(w, a[4], a[5], a[8]);
    Machine.ReserveLimitValid(w, a[5]);
    RefreshIsFresh(w.integrations[a[4]].limit, w.clock);
  }

  /** The world after a borrow, field by field. */
  lemma BorrowSaves(w: World, ixs: seq<Instruction>, cur: nat, a: seq<Pubkey>, amount: u64, env: Environment)
    requires ValidWorld(w) && BorrowOk(w, ixs, cur, a, amount, env)
    ensures a[6] in w.tokens && a[9] in w.tokens && w.reserves[a[8]].limit.lastTs <= w.clock.ts
    ensures var w' := BorrowPost(w, ixs, cur, a, amount, env);
            var i := w.integrations[a[4]];
            var sA := SyncedReserve(w.reserves[a[5]], w.clock, w.tokens[a[6]].amount);
            && w'.controllers == w.controllers[a[0] := w.controllers[a[0]].(status := AtomicSwapLock)]
            && w'.permissions == w.permissions && w'.oracles == w.oracles && w'.clock == w.clock && w'.repayments == w.repayments
            && amount <= sA.lastBalance
            && w'.reserves == w.reserves
                  [a[5] := sA.(limit := WithOutflow(sA.limit, amount), lastBalance := sA.lastBalance - amount)]
                  [a[8] := SyncedReserve(w.reserves[a[8]], w.clock, w.tokens[a[9]].amount)]
            && w'.integrations == w.integrations[a[4] := i.(
               limit := WithOutflow(Refreshed(i.limit, w.clock), amount),
               state := AtomicSwapState(w.tokens[a[6]].amount, w.tokens[a[9]].amount, amount,
                                        w.tokens[a[10]].amount, w.tokens[a[11]].amount))]
            && w'.tokens == Transferred(w.tokens, a[6], a[10], amount, env.received)
            && w'.log == w.log + SyncEvents(a[5], w.reserves[a[5]], w.tokens[a[6]].amount)
                       + SyncEvents(a[8], w.reserves[a[8]], w.tokens[a[9]].amount)
  {
    hide Refreshed, WithOutflow, SyncedReserve, SyncEvents, RepayFollows, Transferred, ReservesValid,
      IntegrationsValid, VaultsOpen;
    Machine.SwapReservesDiffer(w, a[4], a[5], a[8]);
    Machine.ReserveLimitValid(w, a[8]);
    Machine.ReserveLimitValid(w, a[5]);
  }

  lemma RepaidVaultA(w: World, a: seq<Pubkey>, env: Environment)
    requires ValidWorld(w) && RepayReady(w, a) && w.integrations[a[5]].state.AtomicSwapState?
    requires ExcessA(w, a) > 0 ==> CanTransfer(w.tokens, a[13], a[7], a[8], ExcessA(w, a), env.received)
    ensures a[7] in w.tokens && a[7] in WithARepaid(w, a, env)
    ensures WithARepaid(w, a, env)[a[7]].amount >= w.tokens[a[7]].amount
  {
    hide ReservesValid, IntegrationsValid, VaultsOpen;
    Machine.VaultMint(w, a[6]);
  }

  lemma RepayLoads(w: World, a: seq<Pubkey>)
    requires ValidWorld(w) && RepayReady(w, a)
    ensures |a| >= 17 && a[6] in w.reserves && a[9] in w.reserves && a[5] in w.integrations && a[1] in w.controllers
    ensures w.controllers[a[1]].status.AtomicSwapLock?
    ensures w.integrations[a[5]].config.AtomicSwapConfig? && w.integrations[a[5]].state.AtomicSwapState?
  {
    hide ReservesValid, IntegrationsValid, VaultsOpen;
    Machine.IntegrationLimitValid(w, a[5]);
  }

  lemma SettleLoads(w: World, a: seq<Pubkey>, env: Environment)
    requires ValidWorld(w) && RepayReady(w, a) && CanSettle(w, a, env)
    ensures a[5] in w.integrations && w.integrations[a[5]].state.AtomicSwapState?
    ensures Settle(w, a, env).spent == SaturatingSub(w.integrations[a[5]].state.amountBorrowed, Settle(w, a, env).returned)
  {
    hide ReservesValid, IntegrationsValid, VaultsOpen, Settle;
    Machine.IntegrationLimitValid(w, a[5]);
    SwapOutcome.SettleSpends(w, a, env);
  }

  /** The world after a repay, field by field. */
  lemma RepaySaves(w: World, a: seq<Pubkey>, env: Environment)
    requires ValidWorld(w) && RepayOk(w, a, env)
    ensures w.integrations[a[5]].state.AtomicSwapState?
    ensures var w' := RepayPost(w, a, env); var s := Settle(w, a, env);
            var rA := w.reserves[a[6]]; var rB := w.reserves[a[9]]; var i := w.integrations[a[5]];
            && w'.controllers == w.controllers[a[1] := w.controllers[a[1]].(status := Active)]
            && w'.permissions == w.permissions && w'.oracles == w.oracles && w'.clock == w.clock && w'.tokens == s.tokens
            && w'.reserves == w.reserves
                 [a[6] := rA.(limit := WithInflow(rA.limit, s.returned), lastBalance := rA.lastBalance + s.returned)]
                 [a[9] := rB.(limit := WithInflow(rB.limit, s.gained), lastBalance := rB.lastBalance + s.gained)]
            && w'.integrations == w.integrations[a[5] := i.(limit := WithInflow(i.limit, s.returned), state := NO_SWAP)]
            && w'.log == w.log + [AccountingEvent(a[1], OfReserve(a[6]), a[8], Swap, s.spent, Debit),
                                  AccountingEvent(a[1], OfReserve(a[9]), a[11], Swap, s.gained, Credit)]
            && w'.repayments == w.repayments + [Repayment(a[6], i.state.amountBorrowed, s.returned)]
  {
    hide ReservesValid, IntegrationsValid, VaultsOpen, Settle, CanSettle, WithInflow, PriceAccepts;
    Machine.IntegrationLimitValid(w, a[5]);
  }

  lemma OuterLoads(w: World, a: seq<Pubkey>)
    requires ValidWorld(w) && OuterOk(w, a)
    ensures |a| >= 7 && a[4] in w.integrations && a[5] in w.reserves && w.reserves[a[5]].vault in w.tokens
    ensures w.reserves[a[5]].limit.lastTs <= w.clock.ts && w.integrations[a[4]].limit.lastTs <= w.clock.ts
    ensures SyncedReserve(w.reserves[a[5]], w.clock, VaultBalance(w, a[5])).limit.IsFresh(w.clock)
    ensures Refreshed(w.integrations[a[4]].limit, w.clock).IsFresh(w.clock)
  {
    hide ReservesValid, IntegrationsValid, VaultsOpen, SyncedReserve, Refreshed;
    Machine.ReserveLimitValid(w, a[5]);
    Machine.IntegrationLimitValid(w, a[4]);
    Machine.SyncedReserveValid(w.reserves[a[5]], w.clock, VaultBalance(w, a[5]));
    RefreshIsFresh(w.integrations[a[4]].limit, w.clock);
  }

  lemma SentKeepsVault(w: World, key: Pubkey, to: Pubkey, amount: u64, env: Environment)
    requires ValidWorld(w) && key in w.reserves
    requires CanSend(w, w.reserves[key].vault, to, w.reserves[key].mint, amount, env)
    ensures w.reserves[key].vault in Sent(w, w.reserves[key].vault, to, w.reserves[key].mint, amount, env)
  {
  }

  lemma CanPayOutMeans(w: World, a: seq<Pubkey>, tokens: Ledger, amount: u64)
    requires ValidWorld(w) && OuterOk(w, a) && w.reserves[a[5]].vault in w.tokens && w.reserves[a[5]].vault in tokens
    requires w.reserves[a[5]].limit.lastTs <= w.clock.ts && w.integrations[a[4]].limit.lastTs <= w.clock.ts
    ensures var r := SyncedReserve(w.reserves[a[5]], w.clock, VaultBalance(w, a[5]));
            CanPayOut(w, a, tokens, amount) <==>
              && tokens[w.reserves[a[5]].vault].amount + amount == r.lastBalance
              && amount <= r.limit.available && amount <= Refreshed(w.integrations[a[4]].limit, w.clock).available
  {
    hide ReservesValid, IntegrationsValid, VaultsOpen, SyncedReserve, Refreshed;
  }

  /** The world after a payment, field by field. */
  lemma PayOutSaves(w: World, a: seq<Pubkey>, tokens: Ledger, amount: u64, state: IntegrationState,
                    action: AccountingAction)
    requires ValidWorld(w) && OuterOk(w, a) && CanPayOut(w, a, tokens, amount)
    requires w.reserves[a[5]].vault in w.tokens && w.reserves[a[5]].limit.lastTs <= w.clock.ts
    requires w.integrations[a[4]].limit.lastTs <= w.clock.ts
    ensures var w' := PaidOut(w, a, tokens, amount, state, action);
            var r := SyncedReserve(w.reserves[a[5]], w.clock, VaultBalance(w, a[5]));
            var i := w.integrations[a[4]]; var mint := w.reserves[a[5]].mint;
            && w'.controllers == w.controllers && w'.permissions == w.permissions && w'.oracles == w.oracles
            && w'.clock == w.clock && w'.repayments == w.repayments && w'.tokens == tokens
            && amount <= r.limit.available && amount <= r.lastBalance && amount <= Refreshed(i.limit, w.clock).available
            && w'.reserves == w.reserves[a[5] := r.(limit := WithOutflow(r.limit, amount), lastBalance := r.lastBalance - amount)]
            && w'.integrations ==
                 w.integrations[a[4] := i.(limit := WithOutflow(Refreshed(i.limit, w.clock), amount), state := state)]
            && w'.log == w.log + SyncEvents(a[5], w.reserves[a[5]], VaultBalance(w, a[5]))
                 + [AccountingEvent(a[0], OfReserve(a[5]), mint, action, amount, Debit),
                    AccountingEvent(a[0], OfIntegration(a[4]), mint, action, amount, Credit)]
  {
    hide ReservesValid, IntegrationsValid, VaultsOpen, SyncedReserve, Refreshed, WithOutflow, SyncEvents;
  }

  lemma KaminoLoads(w: World, a: seq<Pubkey>, env: Environment)
    requires ValidWorld(w) && OuterOk(w, a) && KaminoAccountsMatch(w, a) && VaultsOpen(w.reserves, env.tokens)
    ensures |a| >= 23 && a[4] in w.integrations && w.integrations[a[4]].state.LendingState?
    ensures a[5] in w.reserves && w.reserves[a[5]].vault in env.tokens && w.reserves[a[5]].vault in w.tokens
    ensures TakenByCpi(w, a[5], env) == SaturatingSub(VaultBalance(w, a[5]), env.tokens[w.reserves[a[5]].vault].amount)
    ensures AddedByCpi(w, a[5], env) == SaturatingSub(env.tokens[w.reserves[a[5]].vault].amount, VaultBalance(w, a[5]))
  {
    hide ReservesValid, IntegrationsValid;
    Machine.IntegrationLimitValid(w, a[4]);
  }

  /** The world after a deposit, field by field. */
  lemma PushKaminoSaves(w: World, a: seq<Pubkey>, amount: u64, env: Environment)
    requires ValidWorld(w) && VaultsOpen(w.reserves, env.tokens) && PushKaminoOk(w, a, amount, env)
    requires w.reserves[a[5]].vault in w.tokens && w.reserves[a[5]].limit.lastTs <= w.clock.ts
    requires w.integrations[a[4]].limit.lastTs <= w.clock.ts && w.integrations[a[4]].state.LendingState?
    ensures var w' := PushKaminoPost(w, a, amount, env);
            var r := SyncedReserve(w.reserves[a[5]], w.clock, VaultBalance(w, a[5]));
            var i := w.integrations[a[4]]; var taken := TakenByCpi(w, a[5], env);
            var before := Klend.LendingBalance(env.before).value; var after := Klend.LendingBalance(env.after).value;
            && w'.controllers == w.controllers && w'.permissions == w.permissions && w'.oracles == w.oracles
            && w'.clock == w.clock && w'.repayments == w.repayments && w'.tokens == env.tokens
            && taken <= r.limit.available && taken <= r.lastBalance && taken <= Refreshed(i.limit, w.clock).available
            && w'.reserves == w.reserves[a[5] := r.(limit := WithOutflow(r.limit, taken), lastBalance := r.lastBalance - taken)]
            && w'.integrations == w.integrations[a[4] := i.(limit := WithOutflow(Refreshed(i.limit, w.clock), taken),
                                                            state := LendingState(after))]
            && w'.log == w.log + SyncEvents(a[5], w.reserves[a[5]], VaultBalance(w, a[5]))
                 + LendingSyncEvents(a[0], a[4], a[10], i.state.balance, before)
                 + [AccountingEvent(a[0], OfIntegration(a[4]), a[10], Deposit, SaturatingSub(after, before), Credit),
                    AccountingEvent(a[0], OfReserve(a[5]), a[10], Deposit, taken, Debit)]
  {
    hide ReservesValid, IntegrationsValid, SyncedReserve, Refreshed, WithOutflow, SyncEvents, LendingSyncEvents,
      Klend.LendingBalance;
  }

  /** The world after a withdrawal, field by field. */
  lemma PullKaminoSaves(w: World, a: seq<Pubkey>, amount: u64, env: Environment)
    requires ValidWorld(w) && VaultsOpen(w.reserves, env.tokens) && PullKaminoOk(w, a, amount, env)
    requires w.reserves[a[5]].vault in w.tokens && w.reserves[a[5]].limit.lastTs <= w.clock.ts
    requires w.integrations[a[4]].limit.lastTs <= w.clock.ts && w.integrations[a[4]].state.LendingState?
    ensures var w' := PullKaminoPost(w, a, amount, env);
            var r := SyncedReserve(w.reserves[a[5]], w.clock, VaultBalance(w, a[5]));
            var i := w.integrations[a[4]]; var added := AddedByCpi(w, a[5], env);
            var before := Klend.LendingBalance(env.before).value; var after := Klend.LendingBalance(env.after).value;
            && w'.controllers == w.controllers && w'.permissions == w.permissions && w'.oracles == w.oracles
            && w'.clock == w.clock && w'.repayments == w.repayments && w'.tokens == env.tokens
            && r.lastBalance + added <= U64_MAX
            && w'.reserves == w.reserves[a[5] := r.(limit := WithInflow(r.limit, added), lastBalance := r.lastBalance + added)]
            && w'.integrations == w.integrations[a[4] := i.(limit := WithInflow(Refreshed(i.limit, w.clock), added),
                                                            state := LendingState(after))]
            && w'.log == w.log + SyncEvents(a[5], w.reserves[a[5]], VaultBalance(w, a[5]))
                 + LendingSyncEvents(a[0], a[4], a[10], i.state.balance, before)
                 + [AccountingEvent(a[0], OfIntegration(a[4]), a[10], Withdrawal, SaturatingSub(before, after), Debit),
                    AccountingEvent(a[0], OfReserve(a[5]), a[10], Withdrawal, added, Credit)]
  {
    hide ReservesValid, IntegrationsValid, SyncedReserve, Refreshed, WithInflow, SyncEvents, LendingSyncEvents,
      Klend.LendingBalance;
  }

  lemma SyncKaminoLoads(w: World, a: seq<Pubkey>, env: Environment)
    requires ValidWorld(w) && SyncKaminoAccounts(w, a) && VaultsOpen(w.reserves, env.tokens)
    ensures |a| >= 8 && a[3] in w.integrations && w.integrations[a[3]].state.LendingState?
    ensures a[4] in w.reserves && w.reserves[a[4]].vault in env.tokens && w.reserves[a[4]].vault in w.tokens
    ensures w.reserves[a[4]].limit.lastTs <= w.clock.ts && w.integrations[a[3]].limit.lastTs <= w.clock.ts
    ensures SyncedReserve(w.reserves[a[4]], w.clock, VaultBalance(w, a[4])).limit.IsFresh(w.clock)
    ensures Refreshed(w.integrations[a[3]].limit, w.clock).IsFresh(w.clock)
    ensures AddedByCpi(w, a[4], env) == SaturatingSub(env.tokens[w.reserves[a[4]].vault].amount, VaultBalance(w, a[4]))
  {
    hide ReservesValid, IntegrationsValid, SyncedReserve, Refreshed;
    Machine.ReserveLimitValid(w, a[4]);
    Machine.IntegrationLimitValid(w, a[3]);
    Machine.SyncedReserveValid(w.reserves[a[4]], w.clock, VaultBalance(w, a[4]));
    RefreshIsFresh(w.integrations[a[3]].limit, w.clock);
  }

  /** The world after a sync, field by field. */
  lemma SyncKaminoSaves(w: World, a: seq<Pubkey>, env: Environment)
    requires ValidWorld(w) && VaultsOpen(w.reserves, env.tokens) && SyncKaminoOk(w, a, env)
    requires w.reserves[a[4]].vault in w.tokens && w.reserves[a[4]].limit.lastTs <= w.clock.ts
    requires w.integrations[a[3]].limit.lastTs <= w.clock.ts && w.integrations[a[3]].state.LendingState?
    ensures var w' := SyncKaminoPost(w, a, env);
            var r := SyncedReserve(w.reserves[a[4]], w.clock, VaultBalance(w, a[4]));
            var i := w.integrations[a[3]]; var limit := Refreshed(i.limit, w.clock);
            var rewards := HarvestedMint(a, env.market); var harvested := rewards.Some? && rewards.value == r.mint;
            var added := if harvested then AddedByCpi(w, a[4], env) else 0;
            var after := Klend.LendingBalance(env.after).value;
            && w'.controllers == w.controllers && w'.permissions == w.permissions && w'.oracles == w.oracles
            && w'.clock == w.clock && w'.repayments == w.repayments
            && w'.tokens == (if rewards.Some? then env.tokens else w.tokens)
            && r.lastBalance + added <= U64_MAX
            && w'.reserves == w.reserves[a[4] := if harvested
                 then r.(limit := WithInflow(r.limit, added), lastBalance := r.lastBalance + added) else r]
            && w'.integrations == w.integrations[a[3] := i.(limit := if harvested then WithInflow(limit, added) else limit,
                                                            state := LendingState(after))]
            && w'.log == w.log + SyncEvents(a[4], w.reserves[a[4]], VaultBalance(w, a[4]))
                 + HarvestEvents(a[0], a[3], a[4], r.mint, harvested, added)
                 + LendingSyncEvents(a[0], a[3], r.mint, i.state.balance, after)
  {
    hide ReservesValid, IntegrationsValid, SyncedReserve, Refreshed, WithInflow, SyncEvents, LendingSyncEvents, HarvestEvents,
      Klend.LendingBalance;
  }
}
