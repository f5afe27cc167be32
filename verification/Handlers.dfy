/**
 What each instruction handler demands (`...Ok`) and what it makes of the world (`...Post`).
 `a` is the handler's account list, in the order of its account struct; `env` is what the outside
 contributes: transfer fees, the outcome of a CPI, a price feed.
 */
module Handlers {
  import opened Words
  import opened RateLimit
  import opened Accounts
  import opened Introspection
  import Klend
  import Pricing

  /** A position's account in the lending market: closed by a full withdrawal, or open, with its deposit
      slots all taken or not and one of them for the reserve in question or not. */
  datatype Obligation = Closed | Open(full: bool, holdsReserve: bool)

  /** The farm that rewards a deposit, if there is one: its address, the mints it pays out with their token
      programs, and the addresses derived from it. */
  datatype RewardFarm =
    | NoFarm
    | RewardFarm(key: Pubkey, rewards: set<(Pubkey, Pubkey)>, vault: Pubkey, treasury: Pubkey, vaultsAuthority: Pubkey)

  /** What the lending market's own accounts and address derivations say. */
  datatype LendingMarket = LendingMarket(
    obligation: Obligation,
    marketAuthority: Pubkey,   // derived from the market
    userMetadata: Pubkey,      // derived from the controller's authority
    obligationFarm: Pubkey,    // derived from the reserve's farm and the obligation
    farmAccounts: set<Pubkey>, // accounts of the farms program
    farm: RewardFarm,          // the farm of the reserve's collateral
    stale: bool)               // the reserve has not been refreshed in this slot

  datatype Environment = Environment(
    received: u64,            // of a transfer, after the fee
    receivedB: u64,           // of a repayment's second transfer
    tokens: Ledger,           // after a lending or harvest CPI
    before: Klend.Position,   // the lending position before the CPI
    after: Klend.Position,    // and after it
    market: LendingMarket,
    feedValue: int, feedSlot: u64)

  // ---------- loading accounts ----------

  predicate ControllerLoaded(w: World, key: Pubkey, authority: Pubkey) {
    key in w.controllers && w.controllers[key].authority == authority
  }

  predicate PermissionLoaded(w: World, key: Pubkey, controller: Pubkey, authority: Pubkey) {
    key in w.permissions && w.permissions[key].controller == controller && w.permissions[key].authority == authority
  }

  predicate ReserveLoaded(w: World, key: Pubkey, controller: Pubkey) {
    key in w.reserves && w.reserves[key].controller == controller
  }

  predicate IntegrationLoaded(w: World, key: Pubkey, controller: Pubkey) {
    key in w.integrations && w.integrations[key].controller == controller
  }

  /** Loaded and neither frozen nor locked by a swap. */
  predicate ControllerOpen(w: World, key: Pubkey, authority: Pubkey) {
    && ControllerLoaded(w, key, authority)
    && !w.controllers[key].status.Frozen? && !w.controllers[key].status.AtomicSwapLock?
  }

  // ---------- syncing a reserve with its vault ----------

  function VaultBalance(w: World, key: Pubkey): u64
    requires key in w.reserves && w.reserves[key].vault in w.tokens
  {
    w.tokens[w.reserves[key].vault].amount
  }

  function SyncedReserve(r: ReserveData, clock: Clock, balance: u64): (r': ReserveData)
    requires r.limit.lastTs <= clock.ts
    ensures r' == r.(limit := r'.limit, lastBalance := balance)
  {
    var limit := Refreshed(r.limit, clock);
    if balance == r.lastBalance then r.(limit := limit)
    else if balance > r.lastBalance then
      r.(limit := WithInflow(limit, balance - r.lastBalance), lastBalance := balance)
    else
      r.(limit := WithLoss(limit, r.lastBalance - balance), lastBalance := balance)
  }

  function SyncEvents(key: Pubkey, r: ReserveData, balance: u64): seq<AccountingEvent> {
    if balance == r.lastBalance then []
    else if balance > r.lastBalance then
      [AccountingEvent(r.controller, OfReserve(key), r.mint, Sync, balance - r.lastBalance, Credit)]
    else
      [AccountingEvent(r.controller, OfReserve(key), r.mint, Sync, r.lastBalance - balance, Debit)]
  }

  function Synced(w: World, key: Pubkey): World
    requires key in w.reserves && w.reserves[key].vault in w.tokens
    requires w.reserves[key].limit.lastTs <= w.clock.ts
  {
    var r := w.reserves[key];
    w.(reserves := w.reserves[key := SyncedReserve(r, w.clock, VaultBalance(w, key))],
       log := w.log + SyncEvents(key, r, VaultBalance(w, key)))
  }

  // ---------- controllers and permissions ----------

  ghost predicate InitializeControllerOk(w: World, a: seq<Pubkey>, args: Args) {
    && |a| >= 7 && a[5] == PROGRAM_ID && args.InitializeController?
    && a[1] == KEEL_DEPLOYER_MSIG
    && !args.initialStatus.AtomicSwapLock?
    && a[2] !in w.controllers && a[4] !in w.permissions
  }

  ghost function InitializeControllerPost(w: World, a: seq<Pubkey>, args: Args): World
    requires InitializeControllerOk(w, a, args)
  {
    w.(controllers := w.controllers[a[2] := ControllerData(args.id, args.initialStatus, a[3])],
       permissions := w.permissions[a[4] :=
         PermissionData(a[2], a[1], InForce, NO_CAPABILITIES.(managePermissions := true))])
  }

  ghost predicate ManageControllerOk(w: World, a: seq<Pubkey>, args: Args) {
    && |a| >= 5 && a[4] == PROGRAM_ID && args.ManageController?
    && ControllerLoaded(w, a[0], a[1])
    && (w.controllers[a[0]].status.Frozen? ==> args.status.Active?)
    && PermissionLoaded(w, a[3], a[0], a[2])
    && (match args.status
        case Active => w.permissions[a[3]].CanUnfreezeController()
        case PushPullFrozen => w.permissions[a[3]].CanFreezeController()
        case Frozen => w.permissions[a[3]].CanFreezeController()
        case AtomicSwapLock => false)
    && w.controllers[a[0]].status != args.status
  }

  ghost function ManageControllerPost(w: World, a: seq<Pubkey>, args: Args): World
    requires ManageControllerOk(w, a, args)
  {
    w.(controllers := w.controllers[a[0] := w.controllers[a[0]].(status := args.status)])
  }

  ghost predicate ManagePermissionOk(w: World, a: seq<Pubkey>, args: Args) {
    && |a| >= 9 && a[7] == PROGRAM_ID && args.ManagePermission?
    && !(a[6] == a[4] && (args.permissionStatus.Suspended? || !args.granted.managePermissions))
    && ControllerOpen(w, a[1], a[2])
    && PermissionLoaded(w, a[4], a[1], a[3])
    && (if a[6] in w.permissions then PermissionLoaded(w, a[6], a[1], a[5])
        else forall k :: k in w.permissions ==> !PermissionLoaded(w, k, a[1], a[5]))
    && (w.permissions[a[4]].CanManagePermissions()
        || (&& w.permissions[a[4]].CanSuspendPermissions()
            && args.permissionStatus.Suspended?
            && a[6] in w.permissions
            && !w.permissions[a[6]].CanManagePermissions()))
  }

  ghost function ManagePermissionPost(w: World, a: seq<Pubkey>, args: Args): World
    requires ManagePermissionOk(w, a, args)
  {
    var changed :=
      if w.permissions[a[4]].CanManagePermissions() then
        PermissionData(a[1], a[5], args.permissionStatus, args.granted)
      else w.permissions[a[6]].(status := Suspended);
    w.(permissions := w.permissions[a[6] := changed])
  }

  // ---------- reserves and integrations ----------

  ghost predicate ManagerOk(w: World, controller: Pubkey, controllerAuthority: Pubkey, authority: Pubkey,
                            permission: Pubkey) {
    && ControllerOpen(w, controller, controllerAuthority)
    && PermissionLoaded(w, permission, controller, authority)
    && w.permissions[permission].CanManageReservesAndIntegrations()
  }

  ghost predicate InitializeReserveOk(w: World, a: seq<Pubkey>, args: Args) {
    && |a| >= 12 && a[10] == PROGRAM_ID && args.InitializeReserve?
    && ManagerOk(w, a[1], a[2], a[3], a[4])
    && a[5] !in w.reserves
    && (forall k :: k in w.reserves ==> !(w.reserves[k].controller == a[1] && w.reserves[k].mint == a[6]))
    && WithAta(w.tokens, a[7], a[6])[a[7]].mint == a[6]
  }

  ghost function InitializeReservePost(w: World, a: seq<Pubkey>, args: Args): World
    requires InitializeReserveOk(w, a, args)
  {
    var limit := Bucket(args.slope, args.max, args.max, 0, w.clock.ts, w.clock.slot);
    Synced(w.(tokens := WithAta(w.tokens, a[7], a[6]),
              reserves := w.reserves[a[5] := ReserveData(a[1], a[6], a[7], args.reserveStatus, limit, 0)]), a[5])
  }

  ghost predicate ManageReserveOk(w: World, a: seq<Pubkey>, args: Args) {
    && |a| >= 6 && a[5] == PROGRAM_ID && args.ManageReserve?
    && ManagerOk(w, a[0], a[1], a[2], a[3])
    && ReserveLoaded(w, a[4], a[0])
  }

  function UpdatedLimit(b: Bucket, clock: Clock, slope: Option<u64>, max: Option<u64>): Bucket
    requires b.Valid() && b.lastTs <= clock.ts
  {
    OperationsKeepValid(b, clock, 0, None, None);
    WithLimits(Refreshed(b, clock), slope, max)
  }

  ghost function ManageReservePost(w: World, a: seq<Pubkey>, args: Args): World
    requires ValidWorld(w) && ManageReserveOk(w, a, args)
  {
    var r := w.reserves[a[4]];
    w.(reserves := w.reserves[a[4] := r.(
         status := if args.newReserveStatus.Some? then args.newReserveStatus.value else r.status,
         limit := UpdatedLimit(r.limit, w.clock, args.newSlope, args.newMax))])
  }

  function StartingState(config: IntegrationConfig): IntegrationState {
    match config
    case SplTokenExternalConfig(_, _, _, _) => NoState
    case LzBridgeConfig(_, _, _, _, _, _, _) => LzBridgeState(false)
    case AtomicSwapConfig(_, _, _, _, _, _, _, _, _) => NO_SWAP
    case KaminoConfig(_, _, _, _) => LendingState(0)
  }

  /** The oracle quotes the pair that is swapped, the right way round. */
  predicate Quotes(o: OracleData, config: IntegrationConfig)
    requires config.AtomicSwapConfig?
  {
    if config.oraclePriceInverted then config.outputToken == o.baseMint && config.inputToken == o.quoteMint
    else config.outputToken == o.quoteMint && config.inputToken == o.baseMint
  }

  ghost predicate InitializeIntegrationOk(w: World, a: seq<Pubkey>, args: Args) {
    && |a| >= 8 && a[6] == PROGRAM_ID && args.InitializeIntegration?
    && ManagerOk(w, a[1], a[2], a[3], a[4])
    && a[5] !in w.integrations
    && (forall k :: k in w.integrations ==>
          !(w.integrations[k].controller == a[1] && w.integrations[k].hash == args.hash))
    && (args.config.AtomicSwapConfig? ==>
          && args.config.inputToken != args.config.outputToken
          && args.config.maxStaleness < w.clock.slot
          && w.clock.ts < args.config.expiryTimestamp
          && args.config.oracle in w.oracles && w.oracles[args.config.oracle].controller == a[1]
          && Quotes(w.oracles[args.config.oracle], args.config))
  }

  ghost function InitializeIntegrationPost(w: World, a: seq<Pubkey>, args: Args): World
    requires InitializeIntegrationOk(w, a, args)
  {
    var limit := Bucket(args.slope, args.max, args.max, 0, w.clock.ts, w.clock.slot);
    w.(integrations := w.integrations[a[5] :=
         IntegrationData(a[1], args.description, args.hash, args.integrationStatus, limit, args.config,
                         StartingState(args.config), args.permitLiquidation)])
  }

  ghost predicate ManageIntegrationOk(w: World, a: seq<Pubkey>, args: Args) {
    && |a| >= 6 && a[5] == PROGRAM_ID && args.ManageIntegration?
    && ManagerOk(w, a[0], a[1], a[2], a[3])
    && IntegrationLoaded(w, a[4], a[0])
  }

  ghost function ManageIntegrationPost(w: World, a: seq<Pubkey>, args: Args): World
    requires ValidWorld(w) && ManageIntegrationOk(w, a, args)
  {
    var i := w.integrations[a[4]];
    w.(integrations := w.integrations[a[4] := i.(
         status := if args.newStatus.Some? then args.newStatus.value else i.status,
         description := if args.newDescription.Some? then args.newDescription.value else i.description,
         limit := UpdatedLimit(i.limit, w.clock, args.newSlope, args.newMax))])
  }

  ghost predicate SyncReserveOk(w: World, a: seq<Pubkey>) {
    && |a| >= 4
    && ControllerOpen(w, a[0], a[1])
    && ReserveLoaded(w, a[2], a[0])
    && a[3] == w.reserves[a[2]].vault
  }

  ghost function SyncReservePost(w: World, a: seq<Pubkey>): World
    requires ValidWorld(w) && SyncReserveOk(w, a)
  {
    Synced(w, a[2])
  }

  // ---------- oracles ----------

  ghost predicate InitializeOracleOk(w: World, a: seq<Pubkey>, args: Args) {
    && |a| >= 7 && args.InitializeOracle?
    && ControllerOpen(w, a[1], a[2])
    && a[5] !in w.oracles
  }

  ghost function InitializeOraclePost(w: World, a: seq<Pubkey>, args: Args): World
    requires InitializeOracleOk(w, a, args)
  {
    w.(oracles := w.oracles[a[5] := OracleData(a[1], a[3], args.baseMint, args.quoteMint, a[4], ORACLE_PRECISION, 0, 0)])
  }

  ghost predicate UpdateOracleOk(w: World, a: seq<Pubkey>, args: Args) {
    && |a| >= 6 && args.UpdateOracle?
    && ControllerOpen(w, a[0], a[1])
    && a[4] in w.oracles && w.oracles[a[4]].controller == a[0] && w.oracles[a[4]].authority == a[2]
  }

  ghost function UpdateOraclePost(w: World, a: seq<Pubkey>, args: Args): World
    requires UpdateOracleOk(w, a, args)
  {
    var o := w.oracles[a[4]];
    var o1 := if args.replaceFeed
              then o.(priceFeed := a[3], value := 0, precision := ORACLE_PRECISION, lastUpdateSlot := 0) else o;
    w.(oracles := w.oracles[a[4] := if a[5] != PROGRAM_ID then o1.(authority := a[5]) else o1])
  }

  /** Anyone may refresh a price, whatever the controller's status. */
  ghost predicate RefreshOracleOk(w: World, a: seq<Pubkey>) {
    |a| >= 2 && a[1] in w.oracles && a[0] == w.oracles[a[1]].priceFeed
  }

  ghost function RefreshOraclePost(w: World, a: seq<Pubkey>, env: Environment): World
    requires RefreshOracleOk(w, a)
  {
    w.(oracles := w.oracles[a[1] := w.oracles[a[1]].(value := env.feedValue, lastUpdateSlot := env.feedSlot)])
  }

  // ---------- pushes ----------

  /** The checks every push and pull makes: controller, permission, integration and reserve in force. */
  ghost predicate OuterOk(w: World, a: seq<Pubkey>) {
    && |a| >= 7 && a[6] == PROGRAM_ID
    && ControllerLoaded(w, a[0], a[1]) && w.controllers[a[0]].status.Active?
    && PermissionLoaded(w, a[3], a[0], a[2]) && w.permissions[a[3]].status.InForce?
    && IntegrationLoaded(w, a[4], a[0]) && w.integrations[a[4]].status.InForce?
    && ReserveLoaded(w, a[5], a[0]) && w.reserves[a[5]].status.InForce?
  }

  /** After the sync and the transfer, exactly `amount` has left the vault and both limits allow it. */
  ghost predicate CanPayOut(w: World, a: seq<Pubkey>, tokens: Ledger, amount: u64)
    requires ValidWorld(w) && OuterOk(w, a)
  {
    var r := Synced(w, a[5]).reserves[a[5]];
    && r.vault in tokens && tokens[r.vault].amount + amount == r.lastBalance
    && amount <= r.limit.available
    && amount <= Refreshed(w.integrations[a[4]].limit, w.clock).available
  }

  ghost function PaidOut(w: World, a: seq<Pubkey>, tokens: Ledger, amount: u64, state: IntegrationState,
                         action: AccountingAction): World
    requires ValidWorld(w) && OuterOk(w, a) && CanPayOut(w, a, tokens, amount)
  {
    var w1 := Synced(w, a[5]);
    var r := w1.reserves[a[5]];
    var i := w.integrations[a[4]];
    w1.(reserves := w1.reserves[a[5] := r.(limit := WithOutflow(r.limit, amount), lastBalance := r.lastBalance - amount)],
        integrations := w.integrations[a[4] := i.(limit := WithOutflow(Refreshed(i.limit, w.clock), amount), state := state)],
        tokens := tokens,
        log := w1.log + [AccountingEvent(a[0], OfReserve(a[5]), r.mint, action, amount, Debit),
                         AccountingEvent(a[0], OfIntegration(a[4]), r.mint, action, amount, Credit)])
  }

  /** Paying `amount` from the vault to an associated account that is created if need be. */
  ghost predicate CanSend(w: World, vault: Pubkey, to: Pubkey, mint: Pubkey, amount: u64, env: Environment) {
    CanTransfer(WithAta(w.tokens, to, mint), vault, to, mint, amount, env.received)
  }

  ghost function Sent(w: World, vault: Pubkey, to: Pubkey, mint: Pubkey, amount: u64, env: Environment): Ledger
    requires CanSend(w, vault, to, mint, amount, env)
  {
    Transferred(WithAta(w.tokens, to, mint), vault, to, amount, env.received)
  }

  ghost predicate PushSplTokenExternalOk(w: World, a: seq<Pubkey>, amount: u64, env: Environment)
    requires ValidWorld(w)
  {
    && OuterOk(w, a) && |a| >= 14 && amount > 0
    && w.permissions[a[3]].CanInvokeExternalTransfer()
    && var config := w.integrations[a[4]].config; var r := w.reserves[a[5]];
    && config == SplTokenExternalConfig(a[11], a[7], a[9], a[10])
    && a[8] == r.vault && a[7] == r.mint
    && CanSend(w, a[8], a[10], a[7], amount, env)
    && CanPayOut(w, a, Sent(w, a[8], a[10], a[7], amount, env), amount)
  }

  ghost function PushSplTokenExternalPost(w: World, a: seq<Pubkey>, amount: u64, env: Environment): World
    requires ValidWorld(w) && PushSplTokenExternalOk(w, a, amount, env)
  {
    PaidOut(w, a, Sent(w, a[8], a[10], a[7], amount, env), amount, w.integrations[a[4]].state, ExternalTransfer)
  }

  ghost predicate PushLzBridgeOk(w: World, ixs: seq<Instruction>, cur: nat, a: seq<Pubkey>, amount: u64,
                                 env: Environment)
    requires ValidWorld(w)
  {
    && OuterOk(w, a) && |a| >= 14 && amount > 0
    && var i := w.integrations[a[4]]; var r := w.reserves[a[5]];
    && (w.permissions[a[3]].CanReallocate() || w.permissions[a[3]].CanLiquidate(i))
    && i.config.LzBridgeConfig? && a[7] == i.config.mint && !i.state.pushInFlight
    && a[8] == r.vault && a[7] == r.mint
    && SendFollows(ixs, cur, a[2], a[9], a[7], a[10], i.config, a[4], amount)
    && CanSend(w, a[8], a[9], a[7], amount, env)
    && CanPayOut(w, a, Sent(w, a[8], a[9], a[7], amount, env), amount)
  }

  ghost function PushLzBridgePost(w: World, ixs: seq<Instruction>, cur: nat, a: seq<Pubkey>, amount: u64,
                                  env: Environment): World
    requires ValidWorld(w) && PushLzBridgeOk(w, ixs, cur, a, amount, env)
  {
    PaidOut(w, a, Sent(w, a[8], a[9], a[7], amount, env), amount, LzBridgeState(true), BridgeSend)
  }

  ghost predicate ResetLzPushInFlightOk(w: World, ixs: seq<Instruction>, cur: nat, a: seq<Pubkey>)
    requires cur < |ixs|
  {
    && |a| >= 3 && IsTopLevelReset(ixs, cur)
    && IntegrationLoaded(w, a[1], a[0]) && w.integrations[a[1]].state.LzBridgeState?
  }

  ghost function ResetLzPushInFlightPost(w: World, ixs: seq<Instruction>, cur: nat, a: seq<Pubkey>): World
    requires cur < |ixs| && ResetLzPushInFlightOk(w, ixs, cur, a)
  {
    w.(integrations := w.integrations[a[1] := w.integrations[a[1]].(state := LzBridgeState(false))])
  }

  // ---------- Kamino ----------

  /** The event for a lending balance that moved by itself, usually by interest. */
  function LendingSyncEvents(controller: Pubkey, key: Pubkey, mint: Pubkey, previous: u64,
                             balance: u64): seq<AccountingEvent> {
    if previous == balance then []
    else if balance > previous then
      [AccountingEvent(controller, OfIntegration(key), mint, Sync, balance - previous, Credit)]
    else
      [AccountingEvent(controller, OfIntegration(key), mint, Sync, previous - balance, Debit)]
  }

  ghost predicate KaminoAccountsMatch(w: World, a: seq<Pubkey>)
    requires OuterOk(w, a)
  {
    && |a| >= 23
    && w.integrations[a[4]].config == KaminoConfig(a[15], a[9], a[10], a[8])
    && a[7] == w.reserves[a[5]].vault && a[10] == w.reserves[a[5]].mint
  }

  /** Stands for an absent account. */
  const DEFAULT_PUBKEY: Pubkey := Pubkey(2)

  /** The market authority is the derived one, and so is the obligation's farm unless there is none; the
      farm accounts given are the farms program's. */
  predicate MarketAccountsMatch(a: seq<Pubkey>, market: LendingMarket)
    requires |a| >= 23
  {
    && a[14] == market.marketAuthority
    && (a[20] != DEFAULT_PUBKEY ==> a[20] in market.farmAccounts)
    && (a[19] != a[22] ==> a[19] in market.farmAccounts && a[19] == market.obligationFarm)
  }

  /** A closed obligation is opened again, given the accounts for it; an open one needs a slot. */
  predicate CanDeposit(a: seq<Pubkey>, market: LendingMarket)
    requires |a| >= 23
  {
    match market.obligation
    case Closed => |a| >= 27 && a[24] == market.userMetadata
    case Open(full, holdsReserve) => !full || holdsReserve
  }

  /** How much the CPI took from the vault, and how much it added to it. */
  ghost function TakenByCpi(w: World, key: Pubkey, env: Environment): u64
    requires key in w.reserves && VaultsOpen(w.reserves, w.tokens) && VaultsOpen(w.reserves, env.tokens)
  {
    SaturatingSub(VaultBalance(w, key), env.tokens[w.reserves[key].vault].amount)
  }

  ghost function AddedByCpi(w: World, key: Pubkey, env: Environment): u64
    requires key in w.reserves && VaultsOpen(w.reserves, w.tokens) && VaultsOpen(w.reserves, env.tokens)
  {
    SaturatingSub(env.tokens[w.reserves[key].vault].amount, VaultBalance(w, key))
  }

  ghost predicate PushKaminoOk(w: World, a: seq<Pubkey>, amount: u64, env: Environment)
    requires ValidWorld(w) && VaultsOpen(w.reserves, env.tokens)
  {
    && OuterOk(w, a) && amount > 0 && w.permissions[a[3]].CanReallocate()
    && KaminoAccountsMatch(w, a) && MarketAccountsMatch(a, env.market) && CanDeposit(a, env.market)
    && Klend.LendingBalance(env.before).Some? && Klend.LendingBalance(env.after).Some?
    && TakenByCpi(w, a[5], env) <= Refreshed(w.integrations[a[4]].limit, w.clock).available
    && TakenByCpi(w, a[5], env) <= Synced(w, a[5]).reserves[a[5]].limit.available
  }

  ghost function PushKaminoPost(w: World, a: seq<Pubkey>, amount: u64, env: Environment): World
    requires ValidWorld(w) && VaultsOpen(w.reserves, env.tokens) && PushKaminoOk(w, a, amount, env)
  {
    var w1 := Synced(w, a[5]);
    var r := w1.reserves[a[5]];
    var i := w.integrations[a[4]];
    var taken := TakenByCpi(w, a[5], env);
    var before, after := Klend.LendingBalance(env.before).value, Klend.LendingBalance(env.after).value;
    w1.(reserves := w1.reserves[a[5] := r.(limit := WithOutflow(r.limit, taken), lastBalance := r.lastBalance - taken)],
        integrations := w.integrations[a[4] := i.(limit := WithOutflow(Refreshed(i.limit, w.clock), taken),
                                                  state := LendingState(after))],
        tokens := env.tokens,
        log := w1.log + LendingSyncEvents(a[0], a[4], a[10], i.state.balance, before)
               + [AccountingEvent(a[0], OfIntegration(a[4]), a[10], Deposit, SaturatingSub(after, before), Credit),
                  AccountingEvent(a[0], OfReserve(a[5]), a[10], Deposit, taken, Debit)])
  }

  ghost predicate PullKaminoOk(w: World, a: seq<Pubkey>, amount: u64, env: Environment)
    requires ValidWorld(w) && VaultsOpen(w.reserves, env.tokens)
  {
    && OuterOk(w, a) && amount > 0
    && (w.permissions[a[3]].CanReallocate() || w.permissions[a[3]].CanLiquidate(w.integrations[a[4]]))
    && KaminoAccountsMatch(w, a) && MarketAccountsMatch(a, env.market) && env.market.obligation.Open?
    && Klend.LendingBalance(env.before).Some? && Klend.LendingBalance(env.after).Some?
    && env.before.reserve.LiquidityToCollateral(amount).Some?
  }

  ghost function PullKaminoPost(w: World, a: seq<Pubkey>, amount: u64, env: Environment): World
    requires ValidWorld(w) && VaultsOpen(w.reserves, env.tokens) && PullKaminoOk(w, a, amount, env)
  {
    var w1 := Synced(w, a[5]);
    var r := w1.reserves[a[5]];
    var i := w.integrations[a[4]];
    var added := AddedByCpi(w, a[5], env);
    var before, after := Klend.LendingBalance(env.before).value, Klend.LendingBalance(env.after).value;
    w1.(reserves := w1.reserves[a[5] := r.(limit := WithInflow(r.limit, added), lastBalance := r.lastBalance + added)],
        integrations := w.integrations[a[4] := i.(limit := WithInflow(Refreshed(i.limit, w.clock), added),
                                                  state := LendingState(after))],
        tokens := env.tokens,
        log := w1.log + LendingSyncEvents(a[0], a[4], a[10], i.state.balance, before)
               + [AccountingEvent(a[0], OfIntegration(a[4]), a[10], Withdrawal, SaturatingSub(before, after), Debit),
                  AccountingEvent(a[0], OfReserve(a[5]), a[10], Withdrawal, added, Credit)])
  }

  ghost predicate SyncKaminoAccounts(w: World, a: seq<Pubkey>) {
    && |a| >= 8
    && ControllerOpen(w, a[0], a[1])
    && IntegrationLoaded(w, a[3], a[0]) && w.integrations[a[3]].config.KaminoConfig?
    && ReserveLoaded(w, a[4], a[0])
    && var config := w.integrations[a[3]].config;
    && config.obligation == a[7] && config.reserve == a[6] && config.mint == w.reserves[a[4]].mint
    && a[5] == w.reserves[a[4]].vault
  }

  ghost predicate SyncKaminoOk(w: World, a: seq<Pubkey>, env: Environment)
    requires ValidWorld(w) && VaultsOpen(w.reserves, env.tokens)
  {
    && SyncKaminoAccounts(w, a) && !env.market.stale && Klend.LendingBalance(env.after).Some?
    && (Harvests(a, env.market) ==> HarvestAccountsMatch(a, env.market))
  }

  /** A sync harvests when there is a farm and accounts are given for it. */
  predicate Harvests(a: seq<Pubkey>, market: LendingMarket) {
    market.farm.RewardFarm? && |a| > 8
  }

  /** The accounts are those of the reserve's own farm, which pays rewards in the mint given. */
  predicate HarvestAccountsMatch(a: seq<Pubkey>, market: LendingMarket)
    requires Harvests(a, market)
  {
    && |a| >= 21
    && a[8] == market.obligationFarm && a[8] in market.farmAccounts
    && a[9] == market.farm.key && a[9] in market.farmAccounts
    && a[10] == market.farm.vault && a[11] == market.farm.treasury && a[12] == market.farm.vaultsAuthority
    && a[13] in market.farmAccounts
    && (a[15], a[17]) in market.farm.rewards
  }

  /** The mint of the rewards a sync harvests, if it does. */
  function HarvestedMint(a: seq<Pubkey>, market: LendingMarket): Option<Pubkey> {
    if Harvests(a, market) && |a| > 15 then Some(a[15]) else None
  }

  /** Harvested rewards of the reserve's own mint arrive in its vault, through the integration. */
  function HarvestEvents(controller: Pubkey, key: Pubkey, reserveKey: Pubkey, mint: Pubkey, harvested: bool, added: u64)
    : seq<AccountingEvent>
  {
    if !harvested then []
    else [AccountingEvent(controller, OfIntegration(key), mint, Sync, added, Credit),
          AccountingEvent(controller, OfIntegration(key), mint, Withdrawal, added, Debit),
          AccountingEvent(controller, OfReserve(reserveKey), mint, Withdrawal, added, Credit)]
  }

  ghost function SyncKaminoPost(w: World, a: seq<Pubkey>, env: Environment): World
    requires ValidWorld(w) && VaultsOpen(w.reserves, env.tokens) && SyncKaminoOk(w, a, env)
  {
    var w1 := Synced(w, a[4]);
    var r := w1.reserves[a[4]];
    var i := w.integrations[a[3]];
    var i1 := i.(limit := Refreshed(i.limit, w.clock));
    var rewards := HarvestedMint(a, env.market);
    var harvested := rewards.Some? && rewards.value == r.mint;
    var added := if harvested then AddedByCpi(w, a[4], env) else 0;
    var after := Klend.LendingBalance(env.after).value;
    w1.(reserves := if harvested
                    then w1.reserves[a[4] := r.(limit := WithInflow(r.limit, added), lastBalance := r.lastBalance + added)]
                    else w1.reserves,
        integrations := w.integrations[a[3] := i1.(
          limit := if harvested then WithInflow(i1.limit, added) else i1.limit, state := LendingState(after))],
        tokens := if rewards.Some? then env.tokens else w.tokens,
        log := w1.log + HarvestEvents(a[0], a[3], a[4], r.mint, harvested, added)
               + LendingSyncEvents(a[0], a[3], r.mint, i.state.balance, after))
  }

  // ---------- atomic swap ----------

  /** Who borrows, under which controller, from which reserve into which. */
  ghost predicate BorrowParties(w: World, a: seq<Pubkey>) {
    && |a| >= 15 && a[14] == PROGRAM_ID
    && ControllerLoaded(w, a[0], a[1]) && w.controllers[a[0]].status.Active?
    && PermissionLoaded(w, a[3], a[0], a[2]) && w.permissions[a[3]].CanExecuteSwap()
    && ReserveLoaded(w, a[5], a[0]) && ReserveLoaded(w, a[8], a[0])
    && var rA := w.reserves[a[5]]; var rB := w.reserves[a[8]];
    && rA.vault == a[6] && rA.mint == a[7] && rA.status.InForce?
    && rB.vault == a[9] && rB.status.InForce?
  }

  /** The integration lends this pair of tokens, and has not lent or expired. */
  ghost predicate BorrowTerms(w: World, a: seq<Pubkey>, amount: u64)
    requires ValidWorld(w) && BorrowParties(w, a)
  {
    && IntegrationLoaded(w, a[4], a[0])
    && var i := w.integrations[a[4]];
    && i.status.InForce? && i.config.AtomicSwapConfig?
    && i.config.inputToken == w.reserves[a[5]].mint && i.config.outputToken == w.reserves[a[8]].mint
    && i.state.amountBorrowed == 0
    && w.clock.ts < i.config.expiryTimestamp
    && a[10] in w.tokens && a[11] in w.tokens
    && 0 < amount <= w.tokens[a[6]].amount
  }

  ghost predicate BorrowOk(w: World, ixs: seq<Instruction>, cur: nat, a: seq<Pubkey>, amount: u64, env: Environment)
    requires ValidWorld(w)
  {
    && BorrowParties(w, a) && BorrowTerms(w, a, amount)
    && CanTransfer(w.tokens, a[6], a[10], a[7], amount, env.received)
    && RepayFollows(ixs, cur, a[4], a[10], a[11], a[6], a[9])
    && amount <= SyncedReserve(w.reserves[a[5]], w.clock, w.tokens[a[6]].amount).limit.available
    && amount <= Refreshed(w.integrations[a[4]].limit, w.clock).available
  }

  ghost function BorrowPost(w: World, ixs: seq<Instruction>, cur: nat, a: seq<Pubkey>, amount: u64,
                            env: Environment): World
    requires ValidWorld(w) && BorrowOk(w, ixs, cur, a, amount, env)
  {
    var w2 := Synced(Synced(w, a[5]), a[8]);
    var rA := w2.reserves[a[5]];
    var i := w.integrations[a[4]];
    w2.(controllers := w.controllers[a[0] := w.controllers[a[0]].(status := AtomicSwapLock)],
        reserves := w2.reserves[a[5] := rA.(limit := WithOutflow(rA.limit, amount), lastBalance := rA.lastBalance - amount)],
        integrations := w.integrations[a[4] := i.(
          limit := WithOutflow(Refreshed(i.limit, w.clock), amount),
          state := AtomicSwapState(w.tokens[a[6]].amount, w.tokens[a[9]].amount, amount,
                                   w.tokens[a[10]].amount, w.tokens[a[11]].amount))],
        tokens := Transferred(w.tokens, a[6], a[10], amount, env.received))
  }

  /** What the payer still holds of token A above what it held before the borrow. */
  ghost function ExcessA(w: World, a: seq<Pubkey>): u64
    requires |a| >= 17 && a[13] in w.tokens && a[5] in w.integrations && w.integrations[a[5]].state.AtomicSwapState?
  {
    SaturatingSub(w.tokens[a[13]].amount, w.integrations[a[5]].state.recipientTokenAPre)
  }

  /** The ledger once token A has been handed back. */
  ghost function WithARepaid(w: World, a: seq<Pubkey>, env: Environment): Ledger
    requires |a| >= 17 && a[13] in w.tokens && a[5] in w.integrations && w.integrations[a[5]].state.AtomicSwapState?
    requires ExcessA(w, a) > 0 ==> CanTransfer(w.tokens, a[13], a[7], a[8], ExcessA(w, a), env.received)
  {
    if ExcessA(w, a) > 0 then Transferred(w.tokens, a[13], a[7], ExcessA(w, a), env.received) else w.tokens
  }

  /** What a repay moves: token A returned to the vault, token A finally spent, token B gained. */
  datatype Settlement = Settlement(tokens: Ledger, returned: u64, spent: u64, gained: int)

  /** Everything a repay checks before it touches a token. */
  ghost predicate RepayReady(w: World, a: seq<Pubkey>)
    requires ValidWorld(w)
  {
    && |a| >= 17
    && PermissionLoaded(w, a[4], a[1], a[3]) && w.permissions[a[4]].CanExecuteSwap()
    && ControllerLoaded(w, a[1], a[2]) && w.controllers[a[1]].status.AtomicSwapLock?
    && ReserveLoaded(w, a[6], a[1]) && ReserveLoaded(w, a[9], a[1])
    && IntegrationLoaded(w, a[5], a[1])
    && var rA := w.reserves[a[6]]; var rB := w.reserves[a[9]]; var i := w.integrations[a[5]];
    && rA.vault == a[7] && rA.mint == a[8] && rB.vault == a[10] && rB.mint == a[11]
    && i.config.AtomicSwapConfig?
    && i.config.inputToken == rA.mint && i.config.outputToken == rB.mint && i.config.oracle == a[12]
    && i.state.amountBorrowed > 0
    && a[13] in w.tokens && a[14] in w.tokens
    && w.tokens[a[14]].amount >= i.state.recipientTokenBPre
    && w.tokens[a[7]].amount + i.state.amountBorrowed == i.state.lastBalanceA
    && w.tokens[a[10]].amount == i.state.lastBalanceB
  }

  ghost predicate CanSettle(w: World, a: seq<Pubkey>, env: Environment)
    requires ValidWorld(w) && RepayReady(w, a)
  {
    && (ExcessA(w, a) > 0 ==> CanTransfer(w.tokens, a[13], a[7], a[8], ExcessA(w, a), env.received))
    && CanTransfer(WithARepaid(w, a, env), a[14], a[10], a[11],
                   w.tokens[a[14]].amount - w.integrations[a[5]].state.recipientTokenBPre, env.receivedB)
  }

  ghost function Settle(w: World, a: seq<Pubkey>, env: Environment): Settlement
    requires ValidWorld(w) && RepayReady(w, a) && CanSettle(w, a, env)
  {
    var state := w.integrations[a[5]].state;
    var tokens1 := WithARepaid(w, a, env);
    var tokens2 := Transferred(tokens1, a[14], a[10], w.tokens[a[14]].amount - state.recipientTokenBPre, env.receivedB);
    var returned := if ExcessA(w, a) > 0 then tokens1[a[7]].amount - w.tokens[a[7]].amount else 0;
    Settlement(tokens2, returned, SaturatingSub(state.amountBorrowed, returned),
               tokens2[a[10]].amount - w.tokens[a[10]].amount)
  }

  /** The oracle's price, inverted if so configured, accepts this exchange. */
  predicate PriceAccepted(o: OracleData, config: IntegrationConfig, spent: u64, gained: u64)
    requires config.AtomicSwapConfig?
  {
    var price := Pricing.GetPrice(o.value, o.precision, config.oraclePriceInverted);
    && price.Some?
    && Pricing.CheckSwapSlippage(spent, config.inputMintDecimals, gained, config.outputMintDecimals,
                                 config.maxSlippageBps, price.value, o.precision).Accepted?
  }

  /** The controller's oracle is fresh enough, and its price accepts this exchange. */
  predicate PriceAccepts(oracles: map<Pubkey, OracleData>, clock: Clock, key: Pubkey, controller: Pubkey,
                         config: IntegrationConfig, spent: u64, gained: u64)
    requires config.AtomicSwapConfig?
  {
    && key in oracles && oracles[key].controller == controller
    && oracles[key].lastUpdateSlot >= clock.slot - config.maxStaleness
    && PriceAccepted(oracles[key], config, spent, gained)
  }

  ghost predicate OraclePriceAccepts(w: World, a: seq<Pubkey>, s: Settlement)
    requires ValidWorld(w) && RepayReady(w, a)
  {
    && 0 <= s.gained <= U64_MAX
    && PriceAccepts(w.oracles, w.clock, a[12], a[1], w.integrations[a[5]].config, s.spent, s.gained)
  }

  ghost predicate RepayOk(w: World, a: seq<Pubkey>, env: Environment)
    requires ValidWorld(w)
  {
    && RepayReady(w, a) && CanSettle(w, a, env)
    && var s := Settle(w, a, env);
    && OraclePriceAccepts(w, a, s)
    && w.reserves[a[6]].limit.IsFresh(w.clock) && w.reserves[a[9]].limit.IsFresh(w.clock)
    && w.integrations[a[5]].limit.IsFresh(w.clock)
    && w.reserves[a[6]].lastBalance + s.returned <= U64_MAX
    && w.reserves[a[9]].lastBalance + s.gained <= U64_MAX
  }

  ghost function RepayPost(w: World, a: seq<Pubkey>, env: Environment): World
    requires ValidWorld(w) && RepayOk(w, a, env)
  {
    var s := Settle(w, a, env);
    var rA := w.reserves[a[6]];
    var rB := w.reserves[a[9]];
    var i := w.integrations[a[5]];
    w.(controllers := w.controllers[a[1] := w.controllers[a[1]].(status := Active)],
       reserves := w.reserves
         [a[6] := rA.(limit := WithInflow(rA.limit, s.returned), lastBalance := rA.lastBalance + s.returned)]
         [a[9] := rB.(limit := WithInflow(rB.limit, s.gained), lastBalance := rB.lastBalance + s.gained)],
       integrations := w.integrations[a[5] := i.(limit := WithInflow(i.limit, s.returned), state := NO_SWAP)],
       tokens := s.tokens,
       log := w.log + [AccountingEvent(a[1], OfReserve(a[6]), a[8], Swap, s.spent, Debit),
                       AccountingEvent(a[1], OfReserve(a[9]), a[11], Swap, s.gained, Credit)],
       repayments := w.repayments + [Repayment(a[6], i.state.amountBorrowed, s.returned)])
  }
}
