/**
 The runtime: an instruction of this program is dispatched by its discriminator; a transaction runs
 its top-level instructions in order, and those of other programs may invoke this one any number of
 times and change token balances in between. A single failure undoes the whole transaction, so a
 committed one is a sequence of steps that all succeed.
 */
module Machine {
  import opened Words
  import opened RateLimit
  import opened Accounts
  import opened Introspection
  import opened Handlers

  /** One invocation of this program: the transaction it sees, and what it was invoked with. */
  datatype Call = Call(ixs: seq<Instruction>, cur: nat, ix: Instruction, env: Environment)
  {
    function Disc(): nat {
      if ix.data.Command? then ix.data.disc else 255
    }

    predicate IsBorrow() { Disc() == ATOMIC_SWAP_BORROW_DISC }
    predicate IsRepay() { Disc() == ATOMIC_SWAP_REPAY_DISC }
    predicate IsReset() { Disc() == RESET_LZ_PUSH_IN_FLIGHT_DISC }
    predicate IsLzPush() { Disc() == PUSH_DISC && ix.data.args.LzBridge? }
  }

  /** A call of this program in a valid world. The outside keeps the vaults open in any CPI. */
  ghost predicate Ready(w: World, c: Call) {
    && ValidWorld(w) && c.cur < |c.ixs| && VaultsOpen(w.reserves, c.env.tokens)
    && c.ix.program == PROGRAM_ID && c.ix.data.Command?
  }

  ghost predicate InitializeControllerStep(w: World, c: Call, w': World)
    requires Ready(w, c)
  {
    var a := c.ix.accounts; var args := c.ix.data.args;
    InitializeControllerOk(w, a, args) && w' == InitializeControllerPost(w, a, args)
  }

  ghost predicate ManageControllerStep(w: World, c: Call, w': World)
    requires Ready(w, c)
  {
    var a := c.ix.accounts; var args := c.ix.data.args;
    ManageControllerOk(w, a, args) && w' == ManageControllerPost(w, a, args)
  }

  ghost predicate ManagePermissionStep(w: World, c: Call, w': World)
    requires Ready(w, c)
  {
    var a := c.ix.accounts; var args := c.ix.data.args;
    ManagePermissionOk(w, a, args) && w' == ManagePermissionPost(w, a, args)
  }

  ghost predicate InitializeReserveStep(w: World, c: Call, w': World)
    requires Ready(w, c)
  {
    var a := c.ix.accounts; var args := c.ix.data.args;
    InitializeReserveOk(w, a, args) && w' == InitializeReservePost(w, a, args)
  }

  ghost predicate ManageReserveStep(w: World, c: Call, w': World)
    requires Ready(w, c)
  {
    var a := c.ix.accounts; var args := c.ix.data.args;
    ManageReserveOk(w, a, args) && w' == ManageReservePost(w, a, args)
  }

  ghost predicate InitializeIntegrationStep(w: World, c: Call, w': World)
    requires Ready(w, c)
  {
    var a := c.ix.accounts; var args := c.ix.data.args;
    InitializeIntegrationOk(w, a, args) && w' == InitializeIntegrationPost(w, a, args)
  }

  ghost predicate ManageIntegrationStep(w: World, c: Call, w': World)
    requires Ready(w, c)
  {
    var a := c.ix.accounts; var args := c.ix.data.args;
    ManageIntegrationOk(w, a, args) && w' == ManageIntegrationPost(w, a, args)
  }

  ghost predicate SyncReserveStep(w: World, c: Call, w': World)
    requires Ready(w, c)
  {
    var a := c.ix.accounts;
    SyncReserveOk(w, a) && w' == SyncReservePost(w, a)
  }

  ghost predicate SyncKaminoStep(w: World, c: Call, w': World)
    requires Ready(w, c)
  {
    var a := c.ix.accounts;
    SyncKaminoOk(w, a, c.env) && w' == SyncKaminoPost(w, a, c.env)
  }

  ghost predicate PushSplTokenExternalStep(w: World, c: Call, w': World)
    requires Ready(w, c)
  {
    var a := c.ix.accounts; var args := c.ix.data.args;
    && args.SplTokenExternal? && PushSplTokenExternalOk(w, a, args.amount, c.env)
    && w' == PushSplTokenExternalPost(w, a, args.amount, c.env)
  }

  ghost predicate PushLzBridgeStep(w: World, c: Call, w': World)
    requires Ready(w, c)
  {
    var a := c.ix.accounts; var args := c.ix.data.args;
    && args.LzBridge? && PushLzBridgeOk(w, c.ixs, c.cur, a, args.amount, c.env)
    && w' == PushLzBridgePost(w, c.ixs, c.cur, a, args.amount, c.env)
  }

  ghost predicate PushKaminoStep(w: World, c: Call, w': World)
    requires Ready(w, c)
  {
    var a := c.ix.accounts; var args := c.ix.data.args;
    && args.Kamino? && PushKaminoOk(w, a, args.amount, c.env)
    && w' == PushKaminoPost(w, a, args.amount, c.env)
  }

  ghost predicate PullKaminoStep(w: World, c: Call, w': World)
    requires Ready(w, c)
  {
    var a := c.ix.accounts; var args := c.ix.data.args;
    && args.Kamino? && PullKaminoOk(w, a, args.amount, c.env)
    && w' == PullKaminoPost(w, a, args.amount, c.env)
  }

  ghost predicate InitializeOracleStep(w: World, c: Call, w': World)
    requires Ready(w, c)
  {
    var a := c.ix.accounts; var args := c.ix.data.args;
    InitializeOracleOk(w, a, args) && w' == InitializeOraclePost(w, a, args)
  }

  ghost predicate UpdateOracleStep(w: World, c: Call, w': World)
    requires Ready(w, c)
  {
    var a := c.ix.accounts; var args := c.ix.data.args;
    UpdateOracleOk(w, a, args) && w' == UpdateOraclePost(w, a, args)
  }

  ghost predicate RefreshOracleStep(w: World, c: Call, w': World)
    requires Ready(w, c)
  {
    var a := c.ix.accounts;
    RefreshOracleOk(w, a) && w' == RefreshOraclePost(w, a, c.env)
  }

  ghost predicate BorrowStep(w: World, c: Call, w': World)
    requires Ready(w, c)
  {
    var a := c.ix.accounts; var args := c.ix.data.args;
    && args.Borrow? && BorrowOk(w, c.ixs, c.cur, a, args.amount, c.env)
    && w' == BorrowPost(w, c.ixs, c.cur, a, args.amount, c.env)
  }

  ghost predicate RepayStep(w: World, c: Call, w': World)
    requires Ready(w, c)
  {
    var a := c.ix.accounts;
    RepayOk(w, a, c.env) && w' == RepayPost(w, a, c.env)
  }

  ghost predicate ResetStep(w: World, c: Call, w': World)
    requires Ready(w, c)
  {
    var a := c.ix.accounts;
    ResetLzPushInFlightOk(w, c.ixs, c.cur, a) && w' == ResetLzPushInFlightPost(w, c.ixs, c.cur, a)
  }

  /** One successful invocation. Emitting an event and claiming rent change none of these accounts. */
  ghost predicate Executes(w: World, c: Call, w': World)
    requires Ready(w, c)
  {
    match c.ix.data.disc
    case 0 => w' == w
    case 1 => InitializeControllerStep(w, c, w')
    case 2 => ManageControllerStep(w, c, w')
    case 3 => ManagePermissionStep(w, c, w')
    case 4 => InitializeReserveStep(w, c, w')
    case 5 => ManageReserveStep(w, c, w')
    case 6 => InitializeIntegrationStep(w, c, w')
    case 7 => ManageIntegrationStep(w, c, w')
    case 8 => SyncReserveStep(w, c, w')
    case 9 => SyncKaminoStep(w, c, w')
    case 10 => PushSplTokenExternalStep(w, c, w') || PushLzBridgeStep(w, c, w') || PushKaminoStep(w, c, w')
    case 11 => PullKaminoStep(w, c, w')
    case 12 => InitializeOracleStep(w, c, w')
    case 13 => UpdateOracleStep(w, c, w')
    case 14 => RefreshOracleStep(w, c, w')
    case 15 => BorrowStep(w, c, w')
    case 16 => RepayStep(w, c, w')
    case 17 => ResetStep(w, c, w')
    case 18 => w' == w
    case _ => false
  }

  // ---------- what a call may change ----------

  /** The controller a call names. */
  function ControllerOf(c: Call): Pubkey {
    var a := c.ix.accounts;
    var index := if c.Disc() == 1 then 2 else if c.Disc() in {3, 4, 6, 12, 16} then 1 else 0;
    if index < |a| then a[index] else PROGRAM_ID
  }

  /** The integration a borrow, a repay, a push or a reset names. */
  function IntegrationOf(c: Call): Pubkey {
    var a := c.ix.accounts;
    var index := if c.IsReset() then 1 else if c.IsRepay() then 5 else 4;
    if index < |a| then a[index] else PROGRAM_ID
  }

  /** A swap lock is set by a borrow of this controller and by nothing else. */
  predicate ControllerEffect(c: Call, key: Pubkey, d: ControllerData, d': ControllerData) {
    && (d' == d || key == ControllerOf(c))
    && (d'.status.AtomicSwapLock? ==> d.status.AtomicSwapLock? || (c.IsBorrow() && key == ControllerOf(c)))
  }

  /** Only the named controller's own reserves change, and never whose they are or what they hold. */
  predicate ReserveEffect(c: Call, r: ReserveData, r': ReserveData) {
    && (r' == r || r.controller == ControllerOf(c))
    && r'.controller == r.controller && r'.mint == r.mint && r'.vault == r.vault
  }

  /** Likewise for integrations. Borrowed amounts are set by a borrow and cleared by a repay; a bridge
      push is in flight until its reset. */
  predicate IntegrationEffect(c: Call, key: Pubkey, i: IntegrationData, i': IntegrationData) {
    && (i' == i || i.controller == ControllerOf(c))
    && i'.controller == i.controller && i'.hash == i.hash && i'.config == i.config
    && i'.permitLiquidation == i.permitLiquidation
    && (if c.IsRepay() && key == IntegrationOf(c) then i'.Borrowed() == 0
        else (c.IsBorrow() && key == IntegrationOf(c)) || i'.Borrowed() == i.Borrowed())
    && i'.InFlight() == if key == IntegrationOf(c) && c.IsLzPush() then true
                        else if key == IntegrationOf(c) && c.IsReset() then false
                        else i.InFlight()
  }

  /** What each kind of call leaves alone altogether. */
  ghost predicate Untouched(w: World, w': World, c: Call) {
    && w'.clock == w.clock
    && (c.Disc() !in {1, 2, 15, 16} ==> w'.controllers == w.controllers)
    && (c.Disc() !in {1, 3} ==> w'.permissions == w.permissions)
    && (c.Disc() !in {12, 13, 14} ==> w'.oracles == w.oracles)
    && (c.Disc() < 4 || c.Disc() in {6, 7, 12, 13, 14, 17, 18} ==> w'.reserves == w.reserves)
    && (c.Disc() < 6 || c.Disc() in {8, 12, 13, 14, 18} ==> w'.integrations == w.integrations)
  }

  ghost predicate ControllersEffect(c: Call, m: map<Pubkey, ControllerData>, m': map<Pubkey, ControllerData>) {
    && (forall k :: k in m ==> k in m' && ControllerEffect(c, k, m[k], m'[k]))
    && (forall k :: k in m' && k !in m ==> k == ControllerOf(c) && !m'[k].status.AtomicSwapLock?)
  }

  ghost predicate ReservesEffect(c: Call, m: map<Pubkey, ReserveData>, m': map<Pubkey, ReserveData>) {
    && (forall k :: k in m ==> k in m' && ReserveEffect(c, m[k], m'[k]))
    && (forall k :: k in m' && k !in m ==> m'[k].controller == ControllerOf(c))
  }

  ghost predicate IntegrationsEffect(c: Call, m: map<Pubkey, IntegrationData>, m': map<Pubkey, IntegrationData>) {
    && (forall k :: k in m ==> k in m' && IntegrationEffect(c, k, m[k], m'[k]))
    && (forall k :: k in m' && k !in m ==>
          m'[k].controller == ControllerOf(c) && m'[k].Borrowed() == 0 && !m'[k].InFlight())
  }

  ghost predicate Effects(w: World, w': World, c: Call) {
    && Untouched(w, w', c)
    && ControllersEffect(c, w.controllers, w'.controllers)
    && ReservesEffect(c, w.reserves, w'.reserves)
    && IntegrationsEffect(c, w.integrations, w'.integrations)
  }

  lemma EffectsUntouched(w: World, w': World, c: Call)
    requires Effects(w, w', c)
    ensures Untouched(w, w', c)
  {
  }

  // ---------- handlers that rewrite one integration and one or two reserves ----------

  ghost predicate Rewrites(w: World, w': World, c: Call, r: Pubkey, q: Pubkey, i: Pubkey) {
    && w'.clock == w.clock
    && r in w.reserves && r in w'.reserves && q in w.reserves && q in w'.reserves
    && w'.reserves == w.reserves[r := w'.reserves[r]][q := w'.reserves[q]]
    && w.reserves[r].controller == ControllerOf(c) && ReserveEffect(c, w.reserves[r], w'.reserves[r])
    && w.reserves[q].controller == ControllerOf(c) && ReserveEffect(c, w.reserves[q], w'.reserves[q])
    && ValidLimit(w'.reserves[r].limit, w.clock) && ValidLimit(w'.reserves[q].limit, w.clock)
    && i in w.integrations && i in w'.integrations && w'.integrations == w.integrations[i := w'.integrations[i]]
    && w.integrations[i].controller == ControllerOf(c)
    && IntegrationEffect(c, i, w.integrations[i], w'.integrations[i])
    && ValidIntegration(w'.integrations[i], w.clock)
    && VaultsOpen(w.reserves, w'.tokens)
  }

  /** The controller keeps its lock state, or a borrow sets it, or a repay clears it. */
  ghost predicate StatusKept(w: World, w': World, c: Call) {
    && w'.permissions == w.permissions && w'.oracles == w.oracles
    && var key := ControllerOf(c);
    && key in w.controllers && key in w'.controllers && w'.controllers == w.controllers[key := w'.controllers[key]]
    && ControllerEffect(c, key, w.controllers[key], w'.controllers[key])
  }

  lemma RewritesOk(w: World, w': World, c: Call, r: Pubkey, q: Pubkey, i: Pubkey)
    requires ValidWorld(w) && Rewrites(w, w', c, r, q, i) && StatusKept(w, w', c)
    requires c.Disc() in {9, 10, 11, 15, 16} && (c.Disc() !in {15, 16} ==> w'.controllers == w.controllers)
    requires IntegrationOf(c) == i || !(c.IsBorrow() || c.IsRepay() || c.IsLzPush() || c.IsReset())
    ensures ValidWorld(w') && Effects(w, w', c)
  {
    hide ReservesEffect, IntegrationsEffect, ReservesValid, IntegrationsValid, VaultsOpen, ReserveEffect, IntegrationEffect,
      ValidIntegration, ValidLimit;
    var middle := w.reserves[r := w'.reserves[r]];
    ReserveEffectRefl(c, w.reserves[r], w'.reserves[r]);
    ReserveEffectRefl(c, w.reserves[q], w'.reserves[q]);
    ReserveUpdated(w.reserves, w'.tokens, w.clock, r, w'.reserves[r]);
    ReserveUpdated(middle, w'.tokens, w.clock, q, w'.reserves[q]);
    IntegrationUpdated(w.integrations, w.clock, i, w'.integrations[i]);
    ReservesRewritten(c, w.reserves, r, w'.reserves[r], q, w'.reserves[q]);
    IntegrationsRewritten(c, w.integrations, i, w'.integrations[i]);
  }

  lemma ReserveEffectRefl(c: Call, r: ReserveData, r': ReserveData)
    requires ReserveEffect(c, r, r')
    ensures r'.controller == r.controller && r'.mint == r.mint && r'.vault == r.vault
  {
  }

  lemma ReservesRewritten(c: Call, m: map<Pubkey, ReserveData>, r: Pubkey, r': ReserveData, q: Pubkey, q': ReserveData)
    requires r in m && q in m && ReserveEffect(c, m[r], r') && ReserveEffect(c, m[q], q')
    ensures ReservesEffect(c, m, m[r := r'][q := q'])
  {
  }

  lemma IntegrationsRewritten(c: Call, m: map<Pubkey, IntegrationData>, i: Pubkey, i': IntegrationData)
    requires i in m && IntegrationEffect(c, i, m[i], i')
    requires IntegrationOf(c) == i || !(c.IsBorrow() || c.IsRepay() || c.IsLzPush() || c.IsReset())
    ensures IntegrationsEffect(c, m, m[i := i'])
  {
  }

  lemma SyncedReserveValid(r: ReserveData, clock: Clock, balance: u64)
    requires ValidLimit(r.limit, clock)
    ensures ValidLimit(SyncedReserve(r, clock, balance).limit, clock)
    ensures SyncedReserve(r, clock, balance).limit.IsFresh(clock)
  {
    OperationsKeepValid(r.limit, clock, 0, None, None);
  }

  lemma FlowsValid(b: Bucket, clock: Clock, amount: u64)
    requires ValidLimit(b, clock)
    ensures ValidLimit(Refreshed(b, clock), clock)
    ensures ValidLimit(WithInflow(b, amount), clock)
    ensures amount <= b.available ==> ValidLimit(WithOutflow(b, amount), clock)
  {
    OperationsKeepValid(b, clock, amount, None, None);
  }

  lemma TransferKeepsVaults(w: World, tokens: Ledger, from: Pubkey, to: Pubkey, mint: Pubkey, amount: u64,
                            received: u64)
    requires VaultsOpen(w.reserves, tokens) && CanTransfer(tokens, from, to, mint, amount, received)
    ensures VaultsOpen(w.reserves, Transferred(tokens, from, to, amount, received))
  {
  }

  lemma SendKeepsVaults(w: World, vault: Pubkey, to: Pubkey, mint: Pubkey, amount: u64, env: Environment)
    requires ValidWorld(w) && CanSend(w, vault, to, mint, amount, env)
    ensures VaultsOpen(w.reserves, Sent(w, vault, to, mint, amount, env))
  {
    TransferKeepsVaults(w, WithAta(w.tokens, to, mint), vault, to, mint, amount, env.received);
  }

  lemma PaidOutRewrites(w: World, c: Call, tokens: Ledger, amount: u64, state: IntegrationState,
                        action: AccountingAction)
    requires Ready(w, c) && c.Disc() == PUSH_DISC && OuterOk(w, c.ix.accounts)
    requires CanPayOut(w, c.ix.accounts, tokens, amount) && VaultsOpen(w.reserves, tokens)
    requires var i := w.integrations[c.ix.accounts[4]];
             if c.IsLzPush() then state == LzBridgeState(true) && i.config.LzBridgeConfig? else state == i.state
    ensures var w' := PaidOut(w, c.ix.accounts, tokens, amount, state, action);
            ValidWorld(w') && Effects(w, w', c)
  {
    hide Refreshed, WithOutflow, SyncedReserve, SyncEvents, ReservesValid, IntegrationsValid, ValidLimit, Effects;
    var a := c.ix.accounts;
    ReserveLimitValid(w, a[5]);
    IntegrationLimitValid(w, a[4]);
    SyncedReserveValid(w.reserves[a[5]], w.clock, VaultBalance(w, a[5]));
    FlowsValid(w.integrations[a[4]].limit, w.clock, 0);
    FlowsValid(Refreshed(w.integrations[a[4]].limit, w.clock), w.clock, amount);
    FlowsValid(Synced(w, a[5]).reserves[a[5]].limit, w.clock, amount);
    RewritesOk(w, PaidOut(w, a, tokens, amount, state, action), c, a[5], a[5], a[4]);
  }

  predicate IsSpecial(c: Call) {
    c.IsBorrow() || c.IsRepay() || c.IsLzPush() || c.IsReset()
  }

  lemma NothingRewritten(w: World, w': World, c: Call)
    requires ValidWorld(w) && w'.reserves == w.reserves && w'.integrations == w.integrations
    requires w'.clock == w.clock && w'.tokens == w.tokens && OraclesValid(w'.oracles) && !IsSpecial(c)
    ensures ValidWorld(w')
    ensures ReservesEffect(c, w.reserves, w'.reserves) && IntegrationsEffect(c, w.integrations, w'.integrations)
  {
    hide ValidLimit, ValidIntegration, OneReservePerMint;
  }

  // ---------- the handlers one by one ----------

  lemma ControllerStepsOk(w: World, c: Call, w': World)
    requires Ready(w, c)
    requires (c.Disc() == 1 && InitializeControllerStep(w, c, w')) || (c.Disc() == 2 && ManageControllerStep(w, c, w'))
    ensures ValidWorld(w') && Effects(w, w', c)
  {
    hide ReservesEffect, IntegrationsEffect, ReservesValid, IntegrationsValid, VaultsOpen;
    NothingRewritten(w, w', c);
  }

  lemma ManagePermissionStepOk(w: World, c: Call, w': World)
    requires Ready(w, c) && c.Disc() == 3 && ManagePermissionStep(w, c, w')
    ensures ValidWorld(w') && Effects(w, w', c)
  {
    hide ReservesEffect, IntegrationsEffect, ReservesValid, IntegrationsValid, VaultsOpen;
    NothingRewritten(w, w', c);
  }

  lemma OracleStepsOk(w: World, c: Call, w': World)
    requires Ready(w, c)
    requires (c.Disc() == 12 && InitializeOracleStep(w, c, w')) || (c.Disc() == 13 && UpdateOracleStep(w, c, w'))
             || (c.Disc() == 14 && RefreshOracleStep(w, c, w'))
    ensures ValidWorld(w') && Effects(w, w', c)
  {
    hide ReservesEffect, IntegrationsEffect, ReservesValid, IntegrationsValid, VaultsOpen;
    NothingRewritten(w, w', c);
  }

  lemma UpdatedLimitValid(b: Bucket, clock: Clock, slope: Option<u64>, max: Option<u64>)
    requires ValidLimit(b, clock)
    ensures ValidLimit(UpdatedLimit(b, clock, slope, max), clock)
  {
    OperationsKeepValid(b, clock, 0, None, None);
    OperationsKeepValid(Refreshed(b, clock), clock, 0, slope, max);
  }

  /** One reserve rewritten and no integration. */
  lemma ReserveRewritten(w: World, w': World, c: Call, r: Pubkey)
    requires ValidWorld(w) && r in w.reserves && r in w'.reserves
    requires w' == w.(reserves := w.reserves[r := w'.reserves[r]], log := w'.log)
    requires ReserveEffect(c, w.reserves[r], w'.reserves[r]) && ValidLimit(w'.reserves[r].limit, w.clock)
    requires c.Disc() in {5, 8}
    ensures ValidWorld(w') && Effects(w, w', c)
  {
    hide ReservesEffect, IntegrationsEffect, ReservesValid, VaultsOpen, ValidLimit, ReserveEffect;
    ReserveEffectRefl(c, w.reserves[r], w'.reserves[r]);
    ReserveUpdated(w.reserves, w.tokens, w.clock, r, w'.reserves[r]);
    assert w.reserves[r := w'.reserves[r]] == w.reserves[r := w'.reserves[r]][r := w'.reserves[r]];
    ReservesRewritten(c, w.reserves, r, w'.reserves[r], r, w'.reserves[r]);
    IntegrationsSame(c, w.integrations);
  }

  lemma IntegrationsSame(c: Call, m: map<Pubkey, IntegrationData>)
    requires !IsSpecial(c)
    ensures IntegrationsEffect(c, m, m)
  {
  }

  lemma ReserveLimitValid(w: World, r: Pubkey)
    requires ValidWorld(w) && r in w.reserves
    ensures ValidLimit(w.reserves[r].limit, w.clock)
    ensures w.reserves[r].vault in w.tokens
  {
  }

  lemma ManageReserveStepOk(w: World, c: Call, w': World)
    requires Ready(w, c) && c.Disc() == 5 && ManageReserveStep(w, c, w')
    ensures ValidWorld(w') && Effects(w, w', c)
  {
    hide Effects, UpdatedLimit, OneReservePerMint, IntegrationsValid, VaultsOpen;
    var a := c.ix.accounts; var args := c.ix.data.args;
    ReserveLimitValid(w, a[4]);
    UpdatedLimitValid(w.reserves[a[4]].limit, w.clock, args.newSlope, args.newMax);
    ReserveRewritten(w, w', c, a[4]);
  }

  lemma SyncReserveStepOk(w: World, c: Call, w': World)
    requires Ready(w, c) && c.Disc() == 8 && SyncReserveStep(w, c, w')
    ensures ValidWorld(w') && Effects(w, w', c)
  {
    hide Effects, SyncedReserve, OneReservePerMint, IntegrationsValid, SyncEvents, ReservesValid;
    var a := c.ix.accounts;
    ReserveLimitValid(w, a[2]);
    SyncedReserveValid(w.reserves[a[2]], w.clock, VaultBalance(w, a[2]));
    ReserveRewritten(w, w', c, a[2]);
  }

  lemma IntegrationUpdateOk(w: World, w': World, c: Call, i: Pubkey)
    requires ValidWorld(w) && i in w'.integrations && c.Disc() in {6, 7, 17}
    requires w' == w.(integrations := w.integrations[i := w'.integrations[i]])
    requires ValidIntegration(w'.integrations[i], w.clock)
    requires i in w.integrations ==>
               IntegrationEffect(c, i, w.integrations[i], w'.integrations[i]) && (c.IsReset() ==> IntegrationOf(c) == i)
    requires i !in w.integrations ==>
               && c.Disc() == 6 && w'.integrations[i].controller == ControllerOf(c)
               && w'.integrations[i].Borrowed() == 0 && !w'.integrations[i].InFlight()
    ensures ValidWorld(w') && Effects(w, w', c)
  {
    hide ReservesValid, VaultsOpen, ValidIntegration;
    IntegrationUpdated(w.integrations, w.clock, i, w'.integrations[i]);
    if i in w.integrations {
      IntegrationsRewritten(c, w.integrations, i, w'.integrations[i]);
    }
  }

  lemma IntegrationLimitValid(w: World, i: Pubkey)
    requires ValidWorld(w) && i in w.integrations
    ensures ValidIntegration(w.integrations[i], w.clock)
  {
  }

  lemma IntegrationStepsOk(w: World, c: Call, w': World)
    requires Ready(w, c)
    requires (c.Disc() == 6 && InitializeIntegrationStep(w, c, w')) || (c.Disc() == 7 && ManageIntegrationStep(w, c, w'))
    ensures ValidWorld(w') && Effects(w, w', c)
  {
    hide Effects, UpdatedLimit, ReservesValid, IntegrationsValid, VaultsOpen;
    var a := c.ix.accounts; var args := c.ix.data.args;
    if c.Disc() == 6 {
      IntegrationUpdateOk(w, w', c, a[5]);
    } else {
      IntegrationLimitValid(w, a[4]);
      UpdatedLimitValid(w.integrations[a[4]].limit, w.clock, args.newSlope, args.newMax);
      IntegrationUpdateOk(w, w', c, a[4]);
    }
  }

  lemma ResetStepOk(w: World, c: Call, w': World)
    requires Ready(w, c) && c.Disc() == 17 && ResetStep(w, c, w')
    ensures ValidWorld(w') && Effects(w, w', c)
  {
    hide Effects, ReservesValid, IntegrationsValid, VaultsOpen;
    IntegrationLimitValid(w, c.ix.accounts[1]);
    IntegrationUpdateOk(w, w', c, c.ix.accounts[1]);
  }

  /** The new reserve is the only one of its controller and mint, and its vault is open. */
  lemma ReserveAdded(w: World, key: Pubkey, r: ReserveData, tokens: Ledger)
    requires ValidWorld(w) && key !in w.reserves && ValidLimit(r.limit, w.clock)
    requires forall k :: k in w.reserves ==> !(w.reserves[k].controller == r.controller && w.reserves[k].mint == r.mint)
    requires tokens == WithAta(w.tokens, r.vault, r.mint) && tokens[r.vault].mint == r.mint
    ensures ReservesValid(w.reserves[key := r], w.clock)
    ensures VaultsOpen(w.reserves[key := r], tokens)
  {
    hide ValidLimit, IntegrationsValid;
  }

  lemma InitializeReserveStepOk(w: World, c: Call, w': World)
    requires Ready(w, c) && c.Disc() == 4 && InitializeReserveStep(w, c, w')
    ensures ValidWorld(w') && Effects(w, w', c)
  {
    hide SyncedReserve, SyncEvents, IntegrationsValid, IntegrationsEffect, ReservesValid, VaultsOpen, ValidLimit;
    var a := c.ix.accounts; var args := c.ix.data.args;
    var limit := Bucket(args.slope, args.max, args.max, 0, w.clock.ts, w.clock.slot);
    var tokens := WithAta(w.tokens, a[7], a[6]);
    var r := ReserveData(a[1], a[6], a[7], args.reserveStatus, limit, 0);
    assert ValidLimit(limit, w.clock) by { FreshLimitValid(args.slope, args.max, w.clock); }
    var synced := SyncedReserve(r, w.clock, tokens[a[7]].amount);
    SyncedReserveValid(r, w.clock, tokens[a[7]].amount);
    ReserveAdded(w, a[5], synced, tokens);
    assert w.reserves[a[5] := r][a[5] := synced] == w.reserves[a[5] := synced];
    IntegrationsSame(c, w.integrations);
  }

  lemma FreshLimitValid(slope: u64, max: u64, clock: Clock)
    ensures ValidLimit(Bucket(slope, max, max, 0, clock.ts, clock.slot), clock)
  {
  }

  lemma PushSplStepOk(w: World, c: Call, w': World)
    requires Ready(w, c) && c.Disc() == 10 && PushSplTokenExternalStep(w, c, w')
    ensures ValidWorld(w') && Effects(w, w', c)
  {
    hide Effects, PaidOut, CanPayOut, Sent, CanSend, ReservesValid, IntegrationsValid, VaultsOpen;
    var a := c.ix.accounts; var amount := c.ix.data.args.amount;
    SendKeepsVaults(w, a[8], a[10], a[7], amount, c.env);
    PaidOutRewrites(w, c, Sent(w, a[8], a[10], a[7], amount, c.env), amount, w.integrations[a[4]].state, ExternalTransfer);
  }

  lemma PushLzStepOk(w: World, c: Call, w': World)
    requires Ready(w, c) && c.Disc() == 10 && PushLzBridgeStep(w, c, w')
    ensures ValidWorld(w') && Effects(w, w', c)
  {
    hide Effects, PaidOut, CanPayOut, Sent, CanSend, ReservesValid, IntegrationsValid, VaultsOpen, OuterOk, SendFollows;
    var a := c.ix.accounts; var amount := c.ix.data.args.amount;
    SendKeepsVaults(w, a[8], a[9], a[7], amount, c.env);
    PaidOutRewrites(w, c, Sent(w, a[8], a[9], a[7], amount, c.env), amount, LzBridgeState(true), BridgeSend);
  }

  lemma PushKaminoStepOk(w: World, c: Call, w': World)
    requires Ready(w, c) && c.Disc() == 10 && PushKaminoStep(w, c, w')
    ensures ValidWorld(w') && Effects(w, w', c)
  {
    hide Effects, Refreshed, WithOutflow, SyncedReserve, SyncEvents, ReservesValid, IntegrationsValid, ValidLimit,
      LendingSyncEvents, TakenByCpi, Klend.LendingBalance;
    var a := c.ix.accounts;
    var taken := TakenByCpi(w, a[5], c.env);
    ReserveLimitValid(w, a[5]);
    IntegrationLimitValid(w, a[4]);
    SyncedReserveValid(w.reserves[a[5]], w.clock, VaultBalance(w, a[5]));
    FlowsValid(w.integrations[a[4]].limit, w.clock, 0);
    FlowsValid(Refreshed(w.integrations[a[4]].limit, w.clock), w.clock, taken);
    FlowsValid(Synced(w, a[5]).reserves[a[5]].limit, w.clock, taken);
    RewritesOk(w, w', c, a[5], a[5], a[4]);
  }

  lemma PullKaminoStepOk(w: World, c: Call, w': World)
    requires Ready(w, c) && c.Disc() == 11 && PullKaminoStep(w, c, w')
    ensures ValidWorld(w') && Effects(w, w', c)
  {
    hide Effects, Refreshed, WithInflow, SyncedReserve, SyncEvents, ReservesValid, IntegrationsValid, ValidLimit,
      LendingSyncEvents, AddedByCpi, Klend.LendingBalance;
    var a := c.ix.accounts;
    var added := AddedByCpi(w, a[5], c.env);
    ReserveLimitValid(w, a[5]);
    IntegrationLimitValid(w, a[4]);
    SyncedReserveValid(w.reserves[a[5]], w.clock, VaultBalance(w, a[5]));
    FlowsValid(w.integrations[a[4]].limit, w.clock, 0);
    FlowsValid(Refreshed(w.integrations[a[4]].limit, w.clock), w.clock, added);
    FlowsValid(Synced(w, a[5]).reserves[a[5]].limit, w.clock, added);
    RewritesOk(w, w', c, a[5], a[5], a[4]);
  }

  lemma SyncKaminoStepOk(w: World, c: Call, w': World)
    requires Ready(w, c) && c.Disc() == 9 && SyncKaminoStep(w, c, w')
    ensures ValidWorld(w') && Effects(w, w', c)
  {
    hide Effects, Refreshed, WithInflow, SyncedReserve, SyncEvents, ReservesValid, IntegrationsValid, ValidLimit,
      LendingSyncEvents, AddedByCpi, Klend.LendingBalance;
    var a := c.ix.accounts;
    var added := AddedByCpi(w, a[4], c.env);
    ReserveLimitValid(w, a[4]);
    IntegrationLimitValid(w, a[3]);
    SyncedReserveValid(w.reserves[a[4]], w.clock, VaultBalance(w, a[4]));
    FlowsValid(w.integrations[a[3]].limit, w.clock, 0);
    FlowsValid(Refreshed(w.integrations[a[3]].limit, w.clock), w.clock, added);
    FlowsValid(Synced(w, a[4]).reserves[a[4]].limit, w.clock, added);
    RewritesOk(w, w', c, a[4], a[4], a[3]);
  }

  /** The two reserves of a swap are different accounts. */
  lemma SwapReservesDiffer(w: World, i: Pubkey, r: Pubkey, q: Pubkey)
    requires ValidWorld(w) && i in w.integrations && w.integrations[i].config.AtomicSwapConfig?
    requires r in w.reserves && q in w.reserves
    requires w.integrations[i].config.inputToken == w.reserves[r].mint
    requires w.integrations[i].config.outputToken == w.reserves[q].mint
    ensures r != q && w.reserves[r].mint != w.reserves[q].mint && w.reserves[r].vault != w.reserves[q].vault
  {
    IntegrationLimitValid(w, i);
    ReserveLimitValid(w, r);
    ReserveLimitValid(w, q);
    VaultMint(w, r);
    VaultMint(w, q);
  }

  lemma VaultMint(w: World, r: Pubkey)
    requires ValidWorld(w) && r in w.reserves
    ensures w.reserves[r].vault in w.tokens && w.tokens[w.reserves[r].vault].mint == w.reserves[r].mint
  {
  }

  lemma BorrowStepOk(w: World, c: Call, w': World)
    requires Ready(w, c) && c.Disc() == 15 && BorrowStep(w, c, w')
    ensures ValidWorld(w') && Effects(w, w', c)
  {
    hide Effects, Refreshed, WithOutflow, SyncedReserve, SyncEvents, ReservesValid, IntegrationsValid, ValidLimit,
      RepayFollows, Transferred;
    var a := c.ix.accounts; var amount := c.ix.data.args.amount;
    SwapReservesDiffer(w, a[4], a[5], a[8]);
    ReserveLimitValid(w, a[5]);
    ReserveLimitValid(w, a[8]);
    IntegrationLimitValid(w, a[4]);
    SyncedReserveValid(w.reserves[a[5]], w.clock, VaultBalance(w, a[5]));
    SyncedReserveValid(w.reserves[a[8]], w.clock, VaultBalance(w, a[8]));
    FlowsValid(w.integrations[a[4]].limit, w.clock, 0);
    FlowsValid(Refreshed(w.integrations[a[4]].limit, w.clock), w.clock, amount);
    FlowsValid(Synced(w, a[5]).reserves[a[5]].limit, w.clock, amount);
    TransferKeepsVaults(w, w.tokens, a[6], a[10], a[7], amount, c.env.received);
    assert w'.reserves == w.reserves[a[5] := w'.reserves[a[5]]][a[8] := w'.reserves[a[8]]];
    RewritesOk(w, w', c, a[5], a[8], a[4]);
  }

  lemma SettleKeepsVaults(w: World, a: seq<Pubkey>, env: Environment)
    requires ValidWorld(w) && RepayReady(w, a) && CanSettle(w, a, env)
    ensures VaultsOpen(w.reserves, Settle(w, a, env).tokens)
  {
    hide VaultsOpen, ReservesValid, IntegrationsValid, Transferred;
    IntegrationLimitValid(w, a[5]);
    if ExcessA(w, a) > 0 {
      TransferKeepsVaults(w, w.tokens, a[13], a[7], a[8], ExcessA(w, a), env.received);
    }
    TransferKeepsVaults(w, WithARepaid(w, a, env), a[14], a[10], a[11],
                        w.tokens[a[14]].amount - w.integrations[a[5]].state.recipientTokenBPre, env.receivedB);
  }

  lemma RepayStepOk(w: World, c: Call, w': World)
    requires Ready(w, c) && c.Disc() == 16 && RepayStep(w, c, w')
    ensures ValidWorld(w') && Effects(w, w', c)
  {
    hide Effects, WithInflow, ReservesValid, IntegrationsValid, ValidLimit, CanSettle, Settle;
    var a := c.ix.accounts;
    var s := Settle(w, a, c.env);
    SwapReservesDiffer(w, a[5], a[6], a[9]);
    ReserveLimitValid(w, a[6]);
    ReserveLimitValid(w, a[9]);
    IntegrationLimitValid(w, a[5]);
    FlowsValid(w.reserves[a[6]].limit, w.clock, s.returned);
    FlowsValid(w.reserves[a[9]].limit, w.clock, s.gained);
    FlowsValid(w.integrations[a[5]].limit, w.clock, s.returned);
    SettleKeepsVaults(w, a, c.env);
    RewritesOk(w, w', c, a[6], a[9], a[5]);
  }

  /** Whatever a call does, the world stays valid and only what the call may touch changes. */
  lemma ExecutesOk(w: World, c: Call, w': World)
    requires Ready(w, c) && Executes(w, c, w')
    ensures ValidWorld(w') && Effects(w, w', c)
  {
    hide ValidWorld, Effects, InitializeControllerStep, ManageControllerStep, ManagePermissionStep,
      InitializeReserveStep, ManageReserveStep, InitializeIntegrationStep, ManageIntegrationStep, SyncReserveStep,
      SyncKaminoStep, PushSplTokenExternalStep, PushLzBridgeStep, PushKaminoStep, PullKaminoStep, InitializeOracleStep,
      UpdateOracleStep, RefreshOracleStep, BorrowStep, RepayStep, ResetStep;
    match c.ix.data.disc
    case 1 => ControllerStepsOk(w, c, w');
    case 2 => ControllerStepsOk(w, c, w');
    case 3 => ManagePermissionStepOk(w, c, w');
    case 4 => InitializeReserveStepOk(w, c, w');
    case 5 => ManageReserveStepOk(w, c, w');
    case 6 => IntegrationStepsOk(w, c, w');
    case 7 => IntegrationStepsOk(w, c, w');
    case 8 => SyncReserveStepOk(w, c, w');
    case 9 => SyncKaminoStepOk(w, c, w');
    case 10 =>
      if PushSplTokenExternalStep(w, c, w') {
        PushSplStepOk(w, c, w');
      } else if PushLzBridgeStep(w, c, w') {
        PushLzStepOk(w, c, w');
      } else {
        PushKaminoStepOk(w, c, w');
      }
    case 11 => PullKaminoStepOk(w, c, w');
    case 12 => OracleStepsOk(w, c, w');
    case 13 => OracleStepsOk(w, c, w');
    case 14 => OracleStepsOk(w, c, w');
    case 15 => BorrowStepOk(w, c, w');
    case 16 => RepayStepOk(w, c, w');
    case 17 => ResetStepOk(w, c, w');
    case _ => NothingChanges(w, c);
  }

  lemma NothingChanges(w: World, c: Call)
    requires ValidWorld(w) && !IsSpecial(c)
    ensures Effects(w, w, c)
  {
  }

  // ---------- the status a controller must have ----------

  /** Administration, syncs and oracle configuration need a controller that is neither frozen nor locked. */
  predicate NeedsOpen(c: Call) {
    3 <= c.Disc() <= 9 || c.Disc() in {12, 13}
  }

  predicate NeedsActive(c: Call) {
    c.Disc() in {10, 11, 15}
  }

  /** The status gates, by kind of call. */
  ghost predicate Gated(w: World, c: Call, w': World)
    requires c.cur < |c.ixs|
  {
    var key := ControllerOf(c);
    && c.Disc() <= 18
    && (NeedsOpen(c) ==> key in w.controllers && !w.controllers[key].status.Frozen? && !w.controllers[key].status.AtomicSwapLock?)
    && (NeedsActive(c) ==> key in w.controllers && w.controllers[key].status.Active?)
    && (c.Disc() == 1 ==> key !in w.controllers)
    && (c.Disc() == 2 ==>
          && key in w.controllers && key in w'.controllers && w'.controllers[key].status != w.controllers[key].status
          && !w'.controllers[key].status.AtomicSwapLock?
          && (w.controllers[key].status.Frozen? ==> w'.controllers[key].status.Active?))
    && (c.IsRepay() ==> key in w.controllers && w.controllers[key].status.AtomicSwapLock?
                        && key in w'.controllers && w'.controllers[key].status.Active?)
    && (c.IsReset() ==> IsTopLevelReset(c.ixs, c.cur))
    && (c.IsBorrow() ==> IsOwn(c.ixs[c.cur], ATOMIC_SWAP_BORROW_DISC))
  }

  lemma ExecutesGated(w: World, c: Call, w': World)
    requires Ready(w, c) && Executes(w, c, w')
    ensures Gated(w, c, w')
  {
    hide ValidWorld, Gated, InitializeControllerStep, ManageControllerStep, ManagePermissionStep,
      InitializeReserveStep, ManageReserveStep, InitializeIntegrationStep, ManageIntegrationStep, SyncReserveStep,
      SyncKaminoStep, PushSplTokenExternalStep, PushLzBridgeStep, PushKaminoStep, PullKaminoStep, InitializeOracleStep,
      UpdateOracleStep, RefreshOracleStep, BorrowStep, RepayStep, ResetStep;
    match c.ix.data.disc
    case 0 => NoGate(w, c, w');
    case 14 => NoGate(w, c, w');
    case 18 => NoGate(w, c, w');
    case 1 => AdministrationGated(w, c, w');
    case 2 => AdministrationGated(w, c, w');
    case 3 => AdministrationGated(w, c, w');
    case 4 => ReserveCallsGated(w, c, w');
    case 5 => ReserveCallsGated(w, c, w');
    case 8 => ReserveCallsGated(w, c, w');
    case 9 => ReserveCallsGated(w, c, w');
    case 6 => OtherCallsGated(w, c, w');
    case 7 => OtherCallsGated(w, c, w');
    case 12 => OtherCallsGated(w, c, w');
    case 13 => OtherCallsGated(w, c, w');
    case 17 => OtherCallsGated(w, c, w');
    case 10 => MovesGated(w, c, w');
    case 11 => MovesGated(w, c, w');
    case 15 => SwapGated(w, c, w');
    case 16 => SwapGated(w, c, w');
  }

  lemma NoGate(w: World, c: Call, w': World)
    requires Ready(w, c) && c.Disc() in {0, 14, 18}
    ensures Gated(w, c, w')
  {
  }

  lemma AdministrationGated(w: World, c: Call, w': World)
    requires Ready(w, c)
    requires (c.Disc() == 1 && InitializeControllerStep(w, c, w')) || (c.Disc() == 2 && ManageControllerStep(w, c, w'))
             || (c.Disc() == 3 && ManagePermissionStep(w, c, w'))
    ensures Gated(w, c, w')
  {
    hide ValidWorld, ManagePermissionPost;
  }

  lemma ReserveCallsGated(w: World, c: Call, w': World)
    requires Ready(w, c)
    requires (c.Disc() == 4 && InitializeReserveStep(w, c, w')) || (c.Disc() == 5 && ManageReserveStep(w, c, w'))
             || (c.Disc() == 8 && SyncReserveStep(w, c, w')) || (c.Disc() == 9 && SyncKaminoStep(w, c, w'))
    ensures Gated(w, c, w')
  {
    hide ValidWorld, InitializeReservePost, ManageReservePost, SyncReservePost, SyncKaminoPost;
  }

  lemma OtherCallsGated(w: World, c: Call, w': World)
    requires Ready(w, c)
    requires (c.Disc() == 6 && InitializeIntegrationStep(w, c, w')) || (c.Disc() == 7 && ManageIntegrationStep(w, c, w'))
             || (c.Disc() == 12 && InitializeOracleStep(w, c, w')) || (c.Disc() == 13 && UpdateOracleStep(w, c, w'))
             || (c.Disc() == 17 && ResetStep(w, c, w'))
    ensures Gated(w, c, w')
  {
    hide ValidWorld, InitializeIntegrationPost, ManageIntegrationPost, InitializeOraclePost, UpdateOraclePost;
  }

  lemma MovesGated(w: World, c: Call, w': World)
    requires Ready(w, c)
    requires (c.Disc() == 11 && PullKaminoStep(w, c, w'))
             || (c.Disc() == 10 && (PushSplTokenExternalStep(w, c, w') || PushLzBridgeStep(w, c, w') || PushKaminoStep(w, c, w')))
    ensures Gated(w, c, w')
  {
    hide ValidWorld, PullKaminoPost, PushKaminoPost, PushLzBridgePost, PushSplTokenExternalPost, KaminoAccountsMatch,
      MarketAccountsMatch, CanDeposit,
      SendFollows, CanSend, Sent, CanPayOut, TakenByCpi, Klend.LendingBalance, Synced, Refreshed;
  }

  lemma SwapGated(w: World, c: Call, w': World)
    requires Ready(w, c)
    requires (c.Disc() == 15 && BorrowStep(w, c, w')) || (c.Disc() == 16 && RepayStep(w, c, w'))
    ensures Gated(w, c, w')
  {
    hide ValidWorld, BorrowPost, Settle;
  }

  // ---------- what a swap or a bridge call must have been ----------

  lemma BorrowTaken(w: World, c: Call, w': World)
    requires Ready(w, c) && Executes(w, c, w') && c.IsBorrow()
    ensures BorrowStep(w, c, w')
  {
    hide BorrowStep, ValidWorld;
  }

  lemma RepayTaken(w: World, c: Call, w': World)
    requires Ready(w, c) && Executes(w, c, w') && c.IsRepay()
    ensures RepayStep(w, c, w')
  {
    hide RepayStep, ValidWorld;
  }

  lemma LzPushTaken(w: World, c: Call, w': World)
    requires Ready(w, c) && Executes(w, c, w') && c.IsLzPush()
    ensures PushLzBridgeStep(w, c, w')
  {
    hide ValidWorld, PushLzBridgeOk, PushSplTokenExternalOk, PushKaminoOk;
  }
}
