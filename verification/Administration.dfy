/** What each administrative call leaves, spelled out on the accounts: one table over all of them. */
module Administration {
  import opened Words
  import opened RateLimit
  import opened Accounts
  import opened Introspection
  import opened Handlers
  import opened Machine
  import opened Movements

  /** A bucket that starts out full. */
  function Full(slope: u64, max: u64, clock: Clock): Bucket {
    Bucket(slope, max, max, 0, clock.ts, clock.slot)
  }

  /** A call on a permission: managers write all of it, suspenders only suspend those who cannot manage. */
  ghost predicate PermissionManaged(w: World, a: seq<Pubkey>, args: Args, w': World)
    requires |a| >= 9 && args.ManagePermission?
  {
    && a[4] in w.permissions && a[6] in w'.permissions
    && w' == w.(permissions := w.permissions[a[6] := w'.permissions[a[6]]])
    && (if w.permissions[a[4]].granted.managePermissions then
          w'.permissions[a[6]] == PermissionData(a[1], a[5], args.permissionStatus, args.granted)
        else
          && a[6] in w.permissions && w'.permissions[a[6]] == w.permissions[a[6]].(status := Suspended)
          && (w.permissions[a[6]].status == InForce ==> !w.permissions[a[6]].granted.managePermissions))
    // it stays the permission of its holder, of whom there is only one
    && (a[6] in w.permissions ==> w.permissions[a[6]].controller == a[1] && w.permissions[a[6]].authority == a[5])
    && (a[6] !in w.permissions ==>
          forall k :: k in w.permissions ==> w.permissions[k].controller != a[1] || w.permissions[k].authority != a[5])
    // nobody gives up the right to manage permissions alone
    && (a[6] == a[4] ==> args.permissionStatus == InForce && args.granted.managePermissions)
  }

  /** A new reserve: full limit, and the vault's balance taken over as a first event. */
  ghost predicate ReserveInitialized(w: World, a: seq<Pubkey>, args: Args, w': World)
    requires |a| >= 12 && args.InitializeReserve?
  {
    && a[5] !in w.reserves
    && (forall k :: k in w.reserves ==> w.reserves[k].controller != a[1] || w.reserves[k].mint != a[6])
    && (a[7] in w.tokens ==> w.tokens[a[7]].mint == a[6])
    && var balance := if a[7] in w.tokens then w.tokens[a[7]].amount else 0;
    && w' == w.(
         tokens := w.tokens[a[7] := TokenAccount(a[6], balance)],
         reserves := w.reserves[a[5] := ReserveData(a[1], a[6], a[7], args.reserveStatus,
                                                    Full(args.slope, args.max, w.clock), balance)],
         log := w.log + Balancing(a[1], OfReserve(a[5]), a[6], 0, balance))
  }

  /** A new integration: full limit, nothing under way; a swap's oracle quotes its pair, the right way round. */
  ghost predicate IntegrationInitialized(w: World, a: seq<Pubkey>, args: Args, w': World)
    requires |a| >= 8 && args.InitializeIntegration?
  {
    var config := args.config;
    && a[5] !in w.integrations && a[5] in w'.integrations
    && (forall k :: k in w.integrations ==> w.integrations[k].controller != a[1] || w.integrations[k].hash != args.hash)
    && var state := w'.integrations[a[5]].state;
    && w' == w.(integrations := w.integrations[a[5] :=
         IntegrationData(a[1], args.description, args.hash, args.integrationStatus,
                         Full(args.slope, args.max, w.clock), config, state, args.permitLiquidation)])
    && (config.SplTokenExternalConfig? ==> state == NoState)
    && (config.LzBridgeConfig? ==> state == LzBridgeState(false))
    && (config.KaminoConfig? ==> state == LendingState(0))
    && (config.AtomicSwapConfig? ==>
          && state == AtomicSwapState(0, 0, 0, 0, 0)
          && config.inputToken != config.outputToken
          && config.maxStaleness < w.clock.slot && w.clock.ts < config.expiryTimestamp
          && config.oracle in w.oracles && QuotesPair(w.oracles[config.oracle], a[1], config))
  }

  /** The oracle is the controller's and prices input in output tokens, or the other way round if inverted. */
  predicate QuotesPair(o: OracleData, controller: Pubkey, config: IntegrationConfig)
    requires config.AtomicSwapConfig?
  {
    && o.controller == controller
    && o.baseMint == (if config.oraclePriceInverted then config.outputToken else config.inputToken)
    && o.quoteMint == (if config.oraclePriceInverted then config.inputToken else config.outputToken)
  }

  ghost predicate ReserveManaged(w: World, a: seq<Pubkey>, args: Args, w': World)
    requires |a| >= 6 && args.ManageReserve?
  {
    && a[4] in w.reserves && a[4] in w'.reserves && w.reserves[a[4]].controller == a[0]
    && var r, r' := w.reserves[a[4]], w'.reserves[a[4]];
    && w' == w.(reserves := w.reserves[a[4] := r'])
    && r' == r.(limit := r'.limit, status := r'.status)
    && r'.status == (if args.newReserveStatus.Some? then args.newReserveStatus.value else r.status)
    && ValidLimit(r.limit, w.clock) && Reparametrized(r.limit, r'.limit, w.clock, args.newSlope, args.newMax)
  }

  ghost predicate IntegrationManaged(w: World, a: seq<Pubkey>, args: Args, w': World)
    requires |a| >= 6 && args.ManageIntegration?
  {
    && a[4] in w.integrations && a[4] in w'.integrations && w.integrations[a[4]].controller == a[0]
    && var i, i' := w.integrations[a[4]], w'.integrations[a[4]];
    && w' == w.(integrations := w.integrations[a[4] := i'])
    && i' == i.(limit := i'.limit, status := i'.status, description := i'.description)
    && i'.status == (if args.newStatus.Some? then args.newStatus.value else i.status)
    && i'.description == (if args.newDescription.Some? then args.newDescription.value else i.description)
    && ValidLimit(i.limit, w.clock) && Reparametrized(i.limit, i'.limit, w.clock, args.newSlope, args.newMax)
  }

  /** What each administrative call leaves. */
  ghost predicate Administered(w: World, c: Call, w': World)
    requires c.ix.data.Command?
  {
    var a, args := c.ix.accounts, c.ix.data.args;
    match c.ix.data.disc
    case 1 =>
      && |a| >= 7 && args.InitializeController? && args.initialStatus != AtomicSwapLock
      && a[2] !in w.controllers && a[4] !in w.permissions
      && w' == w.(controllers := w.controllers[a[2] := ControllerData(args.id, args.initialStatus, a[3])],
                  permissions := w.permissions[a[4] := PermissionData(a[2], a[1], InForce,
                    Capabilities(true, false, false, false, false, false, false, false, false))])
    case 2 =>
      && |a| >= 5 && args.ManageController? && a[0] in w.controllers
      && var status := w.controllers[a[0]].status;
      && args.status != status && args.status != AtomicSwapLock && (status == Frozen ==> args.status == Active)
      && w' == w.(controllers := w.controllers[a[0] := w.controllers[a[0]].(status := args.status)])
    case 3 => |a| >= 9 && args.ManagePermission? && PermissionManaged(w, a, args, w')
    case 4 => |a| >= 12 && args.InitializeReserve? && ReserveInitialized(w, a, args, w')
    case 5 => |a| >= 6 && args.ManageReserve? && ReserveManaged(w, a, args, w')
    case 6 => |a| >= 8 && args.InitializeIntegration? && IntegrationInitialized(w, a, args, w')
    case 7 => |a| >= 6 && args.ManageIntegration? && IntegrationManaged(w, a, args, w')
    case 12 =>
      && |a| >= 7 && args.InitializeOracle? && a[5] !in w.oracles
      && w' == w.(oracles := w.oracles[a[5] := OracleData(a[1], a[3], args.baseMint, args.quoteMint, a[4], 18, 0, 0)])
    case 13 =>
      && |a| >= 6 && args.UpdateOracle? && a[4] in w.oracles && a[4] in w'.oracles
      && var o, o' := w.oracles[a[4]], w'.oracles[a[4]];
      && w' == w.(oracles := w.oracles[a[4] := o'])
      && o'.controller == o.controller && o'.baseMint == o.baseMint && o'.quoteMint == o.quoteMint
      && o'.authority == (if a[5] != PROGRAM_ID then a[5] else o.authority)
      && (if args.replaceFeed then o'.priceFeed == a[3] && o'.value == o'.lastUpdateSlot == 0 && o'.precision == 18
          else o' == o.(authority := o'.authority))
    case 14 =>
      && |a| >= 2 && a[1] in w.oracles && w.oracles[a[1]].priceFeed == a[0]
      && w' == w.(oracles := w.oracles[a[1] :=
                    w.oracles[a[1]].(value := c.env.feedValue, lastUpdateSlot := c.env.feedSlot)])
    case 17 =>
      && |a| >= 3 && a[1] in w.integrations && w.integrations[a[1]].controller == a[0]
      && w.integrations[a[1]].state.LzBridgeState?
      && w' == w.(integrations := w.integrations[a[1] := w.integrations[a[1]].(state := LzBridgeState(false))])
      && c.cur + 1 == |c.ixs| && c.ixs[c.cur].program == PROGRAM_ID
      && c.ixs[c.cur].data.Command? && c.ixs[c.cur].data.disc == 17 && c.IsReset()
    case 0 => w' == w
    case 18 => w' == w
    case _ => true
  }

  lemma PlainAdministration(w: World, c: Call, w': World)
    requires Ready(w, c)
    requires (c.Disc() == 1 && InitializeControllerStep(w, c, w')) || (c.Disc() == 2 && ManageControllerStep(w, c, w'))
             || (c.Disc() == 3 && ManagePermissionStep(w, c, w')) || (c.Disc() == 17 && ResetStep(w, c, w'))
    ensures Administered(w, c, w')
  {
    hide ValidWorld;
  }

  lemma OracleAdministration(w: World, c: Call, w': World)
    requires Ready(w, c)
    requires (c.Disc() == 12 && InitializeOracleStep(w, c, w')) || (c.Disc() == 13 && UpdateOracleStep(w, c, w'))
             || (c.Disc() == 14 && RefreshOracleStep(w, c, w'))
    ensures Administered(w, c, w')
  {
    hide ValidWorld;
  }

  lemma ReserveAdministration(w: World, c: Call, w': World)
    requires Ready(w, c) && c.Disc() == 4 && InitializeReserveStep(w, c, w')
    ensures Administered(w, c, w')
  {
    hide ValidWorld, SyncedReserve, SyncEvents, Balancing, Level, LevelAfterSync, Refilled;
    var a, args := c.ix.accounts, c.ix.data.args;
    var balance := WithAta(w.tokens, a[7], a[6])[a[7]].amount;
    FirstSyncExact(ReserveData(a[1], a[6], a[7], args.reserveStatus, Full(args.slope, args.max, w.clock), 0), a[5],
                   w.clock, balance);
    var r := w'.reserves[a[5]];
    assert w'.reserves == w.reserves[a[5] := r];
  }

  lemma FirstSyncExact(r: ReserveData, key: Pubkey, clock: Clock, balance: u64)
    requires r.limit == Full(r.limit.slope, r.limit.max, clock) && r.lastBalance == 0
    ensures SyncedReserve(r, clock, balance) == r.(lastBalance := balance)
    ensures SyncEvents(key, r, balance) == Balancing(r.controller, OfReserve(key), r.mint, 0, balance)
  {
  }

  lemma ParameterAdministration(w: World, c: Call, w': World)
    requires Ready(w, c)
    requires (c.Disc() == 5 && ManageReserveStep(w, c, w')) || (c.Disc() == 7 && ManageIntegrationStep(w, c, w'))
    ensures Administered(w, c, w')
  {
    hide ReservesValid, IntegrationsValid, VaultsOpen, WithLimits, Refreshed, Reparametrized;
    var a, args := c.ix.accounts, c.ix.data.args;
    if c.Disc() == 5 {
      ReserveLimitValid(w, a[4]);
      ParametersExact(w.reserves[a[4]].limit, w.clock, args.newSlope, args.newMax);
    } else {
      IntegrationLimitValid(w, a[4]);
      ParametersExact(w.integrations[a[4]].limit, w.clock, args.newSlope, args.newMax);
    }
  }

  lemma IntegrationAdministration(w: World, c: Call, w': World)
    requires Ready(w, c) && c.Disc() == 6 && InitializeIntegrationStep(w, c, w')
    ensures Administered(w, c, w')
  {
    hide ValidWorld;
  }

  /** No administrative call leaves anything else. */
  lemma EveryCallAdministered(w: World, c: Call, w': World)
    requires Ready(w, c) && Executes(w, c, w')
    ensures Administered(w, c, w')
  {
    hide ValidWorld, InitializeControllerStep, ManageControllerStep, ManagePermissionStep,
      InitializeReserveStep, ManageReserveStep, InitializeIntegrationStep, ManageIntegrationStep, SyncReserveStep,
      SyncKaminoStep, PushSplTokenExternalStep, PushLzBridgeStep, PushKaminoStep, PullKaminoStep, InitializeOracleStep,
      UpdateOracleStep, RefreshOracleStep, BorrowStep, RepayStep, ResetStep;
    hide PermissionManaged, ReserveInitialized, IntegrationInitialized, ReserveManaged, IntegrationManaged;
    match c.ix.data.disc
    case 1 => PlainAdministration(w, c, w');
    case 2 => PlainAdministration(w, c, w');
    case 3 => PlainAdministration(w, c, w');
    case 4 => ReserveAdministration(w, c, w');
    case 5 => ParameterAdministration(w, c, w');
    case 6 => IntegrationAdministration(w, c, w');
    case 7 => ParameterAdministration(w, c, w');
    case 12 => OracleAdministration(w, c, w');
    case 13 => OracleAdministration(w, c, w');
    case 14 => OracleAdministration(w, c, w');
    case 17 => PlainAdministration(w, c, w');
    case _ =>
  }
}
