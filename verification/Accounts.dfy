/** The accounts the program reads and writes, as values keyed by address, and the token ledger beside them. */
module Accounts {
  import opened Words
  import opened RateLimit

  /** An address. A program-derived address is determined by its seeds: see `OneReservePerMint`. */
  datatype Pubkey = Pubkey(n: nat)

  /** This program's own id. */
  const PROGRAM_ID: Pubkey := Pubkey(0)

  /** The multisig that may initialize controllers. */
  const KEEL_DEPLOYER_MSIG: Pubkey := Pubkey(1)

  datatype ControllerStatus = Frozen | Active | PushPullFrozen | AtomicSwapLock

  datatype AccountStatus = Suspended | InForce

  datatype ControllerData = ControllerData(id: nat, status: ControllerStatus, authority: Pubkey)

  datatype Capabilities = Capabilities(
    managePermissions: bool, invokeExternalTransfer: bool, executeSwap: bool, reallocate: bool,
    freezeController: bool, unfreezeController: bool, manageReservesAndIntegrations: bool,
    suspendPermissions: bool, liquidate: bool)
  {
    /** No capability of this is missing from `other`. */
    predicate Within(other: Capabilities) {
      && (managePermissions ==> other.managePermissions)
      && (invokeExternalTransfer ==> other.invokeExternalTransfer)
      && (executeSwap ==> other.executeSwap)
      && (reallocate ==> other.reallocate)
      && (freezeController ==> other.freezeController)
      && (unfreezeController ==> other.unfreezeController)
      && (manageReservesAndIntegrations ==> other.manageReservesAndIntegrations)
      && (suspendPermissions ==> other.suspendPermissions)
      && (liquidate ==> other.liquidate)
    }
  }

  const NO_CAPABILITIES := Capabilities(false, false, false, false, false, false, false, false, false)

  datatype PermissionData = PermissionData(
    controller: Pubkey, authority: Pubkey, status: AccountStatus, granted: Capabilities)
  {
    /** A suspended permission can do nothing. */
    function Effective(): Capabilities {
      if status.InForce? then granted else NO_CAPABILITIES
    }

    predicate CanManagePermissions() { status.InForce? && granted.managePermissions }
    predicate CanSuspendPermissions() { status.InForce? && granted.suspendPermissions }
    predicate CanFreezeController() { status.InForce? && granted.freezeController }
    predicate CanUnfreezeController() { status.InForce? && granted.unfreezeController }
    predicate CanManageReservesAndIntegrations() { status.InForce? && granted.manageReservesAndIntegrations }
    predicate CanExecuteSwap() { status.InForce? && granted.executeSwap }
    predicate CanReallocate() { status.InForce? && granted.reallocate }
    predicate CanInvokeExternalTransfer() { status.InForce? && granted.invokeExternalTransfer }
    predicate CanLiquidate(i: IntegrationData) { status.InForce? && granted.liquidate && i.permitLiquidation }
  }

  /** A suspended permission can do nothing, whatever it was granted; and nobody can do what was not granted. */
  lemma SuspendedCanDoNothing(p: PermissionData, i: IntegrationData)
    ensures p.status == Suspended || p.granted == NO_CAPABILITIES ==>
              && !p.CanManagePermissions() && !p.CanSuspendPermissions() && !p.CanFreezeController()
              && !p.CanUnfreezeController() && !p.CanManageReservesAndIntegrations() && !p.CanExecuteSwap()
              && !p.CanReallocate() && !p.CanInvokeExternalTransfer() && !p.CanLiquidate(i)
              && p.Effective() == NO_CAPABILITIES
  {
  }

  datatype ReserveData = ReserveData(
    controller: Pubkey, mint: Pubkey, vault: Pubkey, status: AccountStatus, limit: Bucket, lastBalance: u64)

  datatype IntegrationConfig =
    | SplTokenExternalConfig(program: Pubkey, mint: Pubkey, recipient: Pubkey, tokenAccount: Pubkey)
    | LzBridgeConfig(program: Pubkey, mint: Pubkey, oftStore: Pubkey, peerConfig: Pubkey,
                     oftTokenEscrow: Pubkey, destinationAddress: Pubkey, destinationEid: nat)
    | AtomicSwapConfig(inputToken: Pubkey, outputToken: Pubkey, oracle: Pubkey, maxStaleness: u64,
                       expiryTimestamp: int, maxSlippageBps: nat, inputMintDecimals: nat,
                       outputMintDecimals: nat, oraclePriceInverted: bool)
    | KaminoConfig(market: Pubkey, reserve: Pubkey, mint: Pubkey, obligation: Pubkey)

  datatype IntegrationState =
    | NoState
    | LzBridgeState(pushInFlight: bool)
    | AtomicSwapState(lastBalanceA: u64, lastBalanceB: u64, amountBorrowed: u64,
                      recipientTokenAPre: u64, recipientTokenBPre: u64)
    | LendingState(balance: u64)

  const NO_SWAP := AtomicSwapState(0, 0, 0, 0, 0)

  datatype IntegrationData = IntegrationData(
    controller: Pubkey, description: string, hash: nat, status: AccountStatus, limit: Bucket,
    config: IntegrationConfig, state: IntegrationState, permitLiquidation: bool)
  {
    predicate StateFits() {
      match config
      case SplTokenExternalConfig(_, _, _, _) => state.NoState?
      case LzBridgeConfig(_, _, _, _, _, _, _) => state.LzBridgeState?
      case AtomicSwapConfig(_, _, _, _, _, _, _, _, _) => state.AtomicSwapState?
      case KaminoConfig(_, _, _, _) => state.LendingState?
    }

    function Borrowed(): u64 {
      if state.AtomicSwapState? then state.amountBorrowed else 0
    }

    predicate InFlight() {
      state.LzBridgeState? && state.pushInFlight
    }
  }

  /** The only kind of feed there is, Switchboard's, has a fixed precision. */
  const ORACLE_PRECISION: nat := 18

  datatype OracleData = OracleData(
    controller: Pubkey, authority: Pubkey, baseMint: Pubkey, quoteMint: Pubkey, priceFeed: Pubkey,
    precision: nat, value: int, lastUpdateSlot: u64)

  // ---------- the token ledger ----------

  datatype TokenAccount = TokenAccount(mint: Pubkey, amount: u64)

  type Ledger = map<Pubkey, TokenAccount>

  /** A checked transfer of `amount`, of which a transfer fee may leave only `received`. */
  predicate CanTransfer(tokens: Ledger, from: Pubkey, to: Pubkey, mint: Pubkey, amount: u64, received: u64) {
    && from in tokens && to in tokens && tokens[from].mint == mint && tokens[to].mint == mint
    && received <= amount <= tokens[from].amount
    && (from != to ==> tokens[to].amount + received <= U64_MAX)
  }

  function Transferred(tokens: Ledger, from: Pubkey, to: Pubkey, amount: u64, received: u64): Ledger
    requires from in tokens && to in tokens && amount <= tokens[from].amount
    requires from != to ==> tokens[to].amount + received <= U64_MAX
  {
    if from == to then tokens else
      tokens[from := tokens[from].(amount := tokens[from].amount - amount)]
            [to := tokens[to].(amount := tokens[to].amount + received)]
  }

  /** The associated token account is created empty unless it exists. */
  function WithAta(tokens: Ledger, account: Pubkey, mint: Pubkey): Ledger {
    if account in tokens then tokens else tokens[account := TokenAccount(mint, 0)]
  }

  // ---------- the event log ----------

  datatype AccountingAction = Sync | ExternalTransfer | Deposit | Withdrawal | BridgeSend | Swap

  datatype Direction = Debit | Credit

  /** An accounting event is about one reserve or one integration. */
  datatype Subject = OfReserve(reserve: Pubkey) | OfIntegration(integration: Pubkey)

  datatype AccountingEvent = AccountingEvent(
    controller: Pubkey, subject: Subject, mint: Pubkey, action: AccountingAction, delta: u64, direction: Direction)
  {
    function Signed(): int {
      if direction.Credit? then delta as int else -(delta as int)
    }
  }

  /** Credits minus debits recorded for `subject`. */
  function Net(log: seq<AccountingEvent>, subject: Subject): int {
    if log == [] then 0 else
      var event := log[|log| - 1];
      Net(log[..|log| - 1], subject) + if event.subject == subject then event.Signed() else 0
  }

  lemma {:induction false} NetAppend(log: seq<AccountingEvent>, more: seq<AccountingEvent>, subject: Subject)
    ensures Net(log + more, subject) == Net(log, subject) + Net(more, subject)
    decreases |more|
  {
    if more == [] {
      assert log + more == log;
    } else {
      var whole := log + more;
      assert whole[..|whole| - 1] == log + more[..|more| - 1];
      NetAppend(log, more[..|more| - 1], subject);
    }
  }

  /** What a repayment gave back of what had been borrowed: kept for the audit, not by the program. */
  datatype Repayment = Repayment(reserve: Pubkey, borrowed: u64, returned: u64)

  /** Tokens returned to a reserve above the amounts borrowed from it; no event records them. */
  function Surplus(repayments: seq<Repayment>, reserve: Pubkey): nat {
    if repayments == [] then 0 else
      var last := repayments[|repayments| - 1];
      Surplus(repayments[..|repayments| - 1], reserve)
      + if last.reserve == reserve then Max(last.returned - last.borrowed, 0) else 0
  }

  // ---------- the world ----------

  datatype World = World(
    controllers: map<Pubkey, ControllerData>,
    permissions: map<Pubkey, PermissionData>,
    reserves: map<Pubkey, ReserveData>,
    integrations: map<Pubkey, IntegrationData>,
    oracles: map<Pubkey, OracleData>,
    tokens: Ledger,
    clock: Clock,
    log: seq<AccountingEvent>,
    repayments: seq<Repayment>)

  ghost predicate ValidLimit(b: Bucket, clock: Clock) {
    b.Valid() && b.lastTs <= clock.ts
  }

  ghost predicate ValidIntegration(i: IntegrationData, clock: Clock) {
    && ValidLimit(i.limit, clock)
    && i.StateFits()
    && (i.config.AtomicSwapConfig? ==>
          i.config.inputToken != i.config.outputToken && i.config.maxStaleness <= clock.slot)
  }

  /** A reserve lives at the address derived from its controller and mint, so there is one for each. */
  ghost predicate OneReservePerMint(reserves: map<Pubkey, ReserveData>) {
    forall k, l ::
      (k in reserves && l in reserves
       && reserves[k].controller == reserves[l].controller && reserves[k].mint == reserves[l].mint) ==> k == l
  }

  /** Outsiders may change any balance, but a reserve's vault is the controller authority's own
      account: it stays open and keeps its mint. */
  ghost predicate VaultsOpen(reserves: map<Pubkey, ReserveData>, tokens: Ledger) {
    forall k :: k in reserves ==> reserves[k].vault in tokens && tokens[reserves[k].vault].mint == reserves[k].mint
  }

  ghost predicate ReservesValid(reserves: map<Pubkey, ReserveData>, clock: Clock) {
    (forall k :: k in reserves ==> ValidLimit(reserves[k].limit, clock)) && OneReservePerMint(reserves)
  }

  ghost predicate IntegrationsValid(integrations: map<Pubkey, IntegrationData>, clock: Clock) {
    forall k :: k in integrations ==> ValidIntegration(integrations[k], clock)
  }

  ghost predicate OraclesValid(oracles: map<Pubkey, OracleData>) {
    forall k :: k in oracles ==> oracles[k].precision == ORACLE_PRECISION
  }

  ghost predicate ValidWorld(w: World) {
    && ReservesValid(w.reserves, w.clock)
    && IntegrationsValid(w.integrations, w.clock)
    && VaultsOpen(w.reserves, w.tokens)
    && OraclesValid(w.oracles)
  }

  lemma ReserveUpdated(reserves: map<Pubkey, ReserveData>, tokens: Ledger, clock: Clock, key: Pubkey, r: ReserveData)
    requires ReservesValid(reserves, clock) && key in reserves && ValidLimit(r.limit, clock)
    requires r.controller == reserves[key].controller && r.mint == reserves[key].mint && r.vault == reserves[key].vault
    ensures ReservesValid(reserves[key := r], clock)
    ensures VaultsOpen(reserves, tokens) <==> VaultsOpen(reserves[key := r], tokens)
  {
    var after := reserves[key := r];
    if VaultsOpen(after, tokens) {
      forall k | k in reserves ensures reserves[k].vault in tokens && tokens[reserves[k].vault].mint == reserves[k].mint {
        assert k in after;
      }
    }
  }

  lemma IntegrationUpdated(integrations: map<Pubkey, IntegrationData>, clock: Clock, key: Pubkey, i: IntegrationData)
    requires IntegrationsValid(integrations, clock) && ValidIntegration(i, clock)
    ensures IntegrationsValid(integrations[key := i], clock)
  {
  }
}
