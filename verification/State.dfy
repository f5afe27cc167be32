/**
 The program's accounts as it works on them: an instruction deserializes an account into an object,
 updates its fields, and saves it. `View` is the value that would be saved.
 */
module State {
  import opened Words
  import opened RateLimit
  import opened Accounts
  import opened Introspection
  import opened Handlers

  /** The log that accounting events are emitted to. */
  class EventLog {
    var events: seq<AccountingEvent>

    constructor (events: seq<AccountingEvent>)
      ensures this.events == events
    {
      this.events := events;
    }

    method Emit(event: AccountingEvent)
      modifies this
      ensures events == old(events) + [event]
    {
      events := events + [event];
    }
  }

  class Controller {
    const id: nat
    const authority: Pubkey
    var status: ControllerStatus

    constructor Load(d: ControllerData)
      ensures View() == d
    {
      id, authority, status := d.id, d.authority, d.status;
    }

    function View(): ControllerData
      reads this
    {
      ControllerData(id, status, authority)
    }

    predicate IsActive() reads this { status.Active? }
    predicate IsFrozen() reads this { status.Frozen? }
    predicate IsAtomicSwapLocked() reads this { status.AtomicSwapLock? }

    method UpdateAndSave(status: ControllerStatus) returns (r: Outcome)
      modifies this
      ensures r.Ok? <==> old(this.status) != status
      ensures View() == if r.Ok? then old(View()).(status := status) else old(View())
    {
      if this.status == status { return InvalidArgument; }
      this.status := status;
      return Ok;
    }
  }

  /** Each capability, given or left alone. */
  datatype CapabilityUpdate = CapabilityUpdate(
    managePermissions: Option<bool>, invokeExternalTransfer: Option<bool>, executeSwap: Option<bool>,
    reallocate: Option<bool>, freezeController: Option<bool>, unfreezeController: Option<bool>,
    manageReservesAndIntegrations: Option<bool>, suspendPermissions: Option<bool>, liquidate: Option<bool>)
  {
    /** What `granted` becomes. */
    function Applied(granted: Capabilities): Capabilities {
      Capabilities(
        Chosen(managePermissions, granted.managePermissions),
        Chosen(invokeExternalTransfer, granted.invokeExternalTransfer),
        Chosen(executeSwap, granted.executeSwap),
        Chosen(reallocate, granted.reallocate),
        Chosen(freezeController, granted.freezeController),
        Chosen(unfreezeController, granted.unfreezeController),
        Chosen(manageReservesAndIntegrations, granted.manageReservesAndIntegrations),
        Chosen(suspendPermissions, granted.suspendPermissions),
        Chosen(liquidate, granted.liquidate))
    }
  }

  function Chosen<T>(given: Option<T>, current: T): T {
    if given.Some? then given.value else current
  }

  const NOT_GIVEN := CapabilityUpdate(None, None, None, None, None, None, None, None, None)

  function Given(c: Capabilities): CapabilityUpdate {
    CapabilityUpdate(
      Some(c.managePermissions), Some(c.invokeExternalTransfer), Some(c.executeSwap), Some(c.reallocate),
      Some(c.freezeController), Some(c.unfreezeController), Some(c.manageReservesAndIntegrations),
      Some(c.suspendPermissions), Some(c.liquidate))
  }

  lemma AllOrNothingGiven(c: Capabilities, granted: Capabilities)
    ensures Given(c).Applied(granted) == c && NOT_GIVEN.Applied(granted) == granted
  {
  }

  class Permission {
    const controller: Pubkey
    const authority: Pubkey
    var status: AccountStatus
    var granted: Capabilities

    constructor Load(d: PermissionData)
      ensures View() == d
    {
      controller, authority, status, granted := d.controller, d.authority, d.status, d.granted;
    }

    function View(): PermissionData
      reads this
    {
      PermissionData(controller, authority, status, granted)
    }

    /** Everything that is given changes, and nothing else. */
    method UpdateAndSave(status: Option<AccountStatus>, update: CapabilityUpdate)
      modifies this
      ensures this.status == Chosen(status, old(this.status))
      ensures granted == update.Applied(old(granted))
      ensures granted.managePermissions == Chosen(update.managePermissions, old(granted).managePermissions)
      ensures granted.invokeExternalTransfer
           == Chosen(update.invokeExternalTransfer, old(granted).invokeExternalTransfer)
      ensures granted.executeSwap == Chosen(update.executeSwap, old(granted).executeSwap)
      ensures granted.reallocate == Chosen(update.reallocate, old(granted).reallocate)
      ensures granted.freezeController == Chosen(update.freezeController, old(granted).freezeController)
      ensures granted.unfreezeController == Chosen(update.unfreezeController, old(granted).unfreezeController)
      ensures granted.manageReservesAndIntegrations
           == Chosen(update.manageReservesAndIntegrations, old(granted).manageReservesAndIntegrations)
      ensures granted.suspendPermissions == Chosen(update.suspendPermissions, old(granted).suspendPermissions)
      ensures granted.liquidate == Chosen(update.liquidate, old(granted).liquidate)
    {
      if status.Some? { this.status := status.value; }
      granted := update.Applied(granted);
    }
  }

  class Reserve {
    const controller: Pubkey
    const mint: Pubkey
    const vault: Pubkey
    var status: AccountStatus
    var rateLimitSlope: u64
    var rateLimitMaxOutflow: u64
    var rateLimitOutflowAmountAvailable: u64
    var rateLimitRemainder: u64
    var lastRefreshTimestamp: timestamp
    var lastRefreshSlot: u64
    var lastBalance: u64

    constructor Load(d: ReserveData)
      ensures View() == d
    {
      controller, mint, vault, status := d.controller, d.mint, d.vault, d.status;
      rateLimitSlope, rateLimitMaxOutflow := d.limit.slope, d.limit.max;
      rateLimitOutflowAmountAvailable, rateLimitRemainder := d.limit.available, d.limit.remainder;
      lastRefreshTimestamp, lastRefreshSlot, lastBalance := d.limit.lastTs, d.limit.lastSlot, d.lastBalance;
    }

    function Limit(): Bucket
      reads this
    {
      Bucket(rateLimitSlope, rateLimitMaxOutflow, rateLimitOutflowAmountAvailable, rateLimitRemainder,
             lastRefreshTimestamp, lastRefreshSlot)
    }

    function View(): ReserveData
      reads this
    {
      ReserveData(controller, mint, vault, status, Limit(), lastBalance)
    }

    method RefreshRateLimit(clock: Clock)
      requires lastRefreshTimestamp <= clock.ts
      modifies this
      ensures View() == old(View()).(limit := Refreshed(old(Limit()), clock))
    {
      if rateLimitMaxOutflow != U64_MAX && lastRefreshTimestamp != clock.ts {
        var (increment, remainder) :=
          CalculateRateLimitIncrement(clock.ts, lastRefreshTimestamp, rateLimitSlope, rateLimitRemainder);
        rateLimitOutflowAmountAvailable := SaturatingAdd(rateLimitOutflowAmountAvailable, increment);
        if rateLimitOutflowAmountAvailable > rateLimitMaxOutflow {
          rateLimitOutflowAmountAvailable := rateLimitMaxOutflow;
        }
        if rateLimitOutflowAmountAvailable == rateLimitMaxOutflow {
          rateLimitRemainder := 0;
        } else {
          rateLimitRemainder := remainder;
        }
      }
      lastRefreshTimestamp := clock.ts;
      lastRefreshSlot := clock.slot;
    }

    method Update(status: Option<AccountStatus>, slope: Option<u64>, maxOutflow: Option<u64>, clock: Clock)
      requires ValidLimit(Limit(), clock)
      modifies this
      ensures View() == old(View()).(status := if status.Some? then status.value else old(this.status),
                                     limit := UpdatedLimit(old(Limit()), clock, slope, maxOutflow))
      ensures Reparametrized(old(Limit()), Limit(), clock, slope, maxOutflow)
    {
      OperationsKeepValid(Limit(), clock, 0, None, None);
      ParametersExact(Limit(), clock, slope, maxOutflow);
      RefreshRateLimit(clock);
      if status.Some? { this.status := status.value; }
      if slope.Some? { rateLimitSlope := slope.value; }
      if maxOutflow.Some? {
        // the checked subtraction cannot fail: what is available never exceeds the cap
        var gap := rateLimitMaxOutflow - rateLimitOutflowAmountAvailable;
        rateLimitMaxOutflow := maxOutflow.value;
        rateLimitOutflowAmountAvailable := SaturatingSub(rateLimitMaxOutflow, gap);
        if gap > rateLimitMaxOutflow { rateLimitRemainder := 0; }
      }
    }

    method UpdateForInflow(clock: Clock, inflow: u64) returns (r: Outcome)
      modifies this
      ensures r.Ok? <==> old(Limit()).IsFresh(clock) && old(lastBalance) + inflow <= U64_MAX
      ensures r.Ok? ==> View() == old(View()).(limit := WithInflow(old(Limit()), inflow),
                                               lastBalance := old(lastBalance) + inflow)
    {
      if !(lastRefreshTimestamp == clock.ts && lastRefreshSlot == clock.slot) { return InvalidArgument; }
      rateLimitOutflowAmountAvailable :=
        Min(rateLimitMaxOutflow, SaturatingAdd(rateLimitOutflowAmountAvailable, inflow));
      if lastBalance + inflow > U64_MAX { return Panicked; }
      lastBalance := lastBalance + inflow;
      return Ok;
    }

    method UpdateForOutflow(clock: Clock, outflow: u64, allowUnderflow: bool) returns (r: Outcome)
      modifies this
      ensures r.Ok? <==> && old(Limit()).IsFresh(clock) && outflow <= old(lastBalance)
                         && (allowUnderflow || outflow <= old(rateLimitOutflowAmountAvailable))
      ensures r.Ok? ==>
        View() == old(View()).(
          limit := if allowUnderflow then WithLoss(old(Limit()), outflow) else WithOutflow(old(Limit()), outflow),
          lastBalance := old(lastBalance) - outflow)
    {
      if !(lastRefreshTimestamp == clock.ts && lastRefreshSlot == clock.slot) { return InvalidArgument; }
      if allowUnderflow {
        rateLimitOutflowAmountAvailable := SaturatingSub(rateLimitOutflowAmountAvailable, outflow);
      } else {
        if outflow > rateLimitOutflowAmountAvailable { return RateLimited; }
        rateLimitOutflowAmountAvailable := rateLimitOutflowAmountAvailable - outflow;
      }
      if outflow > lastBalance { return Panicked; }
      lastBalance := lastBalance - outflow;
      return Ok;
    }

    /** `key` is the reserve's own address, `balance` the amount in the vault account given. */
    method SyncBalance(key: Pubkey, vaultKey: Pubkey, balance: u64, controllerKey: Pubkey, clock: Clock, log: EventLog)
      returns (r: Outcome)
      requires lastRefreshTimestamp <= clock.ts
      modifies this, log
      ensures r.Ok? <==> vaultKey == vault && controllerKey == controller
      ensures r.Ok? ==> View() == SyncedReserve(old(View()), clock, balance)
      ensures r.Ok? ==> log.events == old(log.events) + SyncEvents(key, old(View()), balance)
      ensures !r.Ok? ==> log.events == old(log.events)
    {
      if vaultKey != vault { return InvalidAccountData; }
      if controllerKey != controller { return ControllerDoesNotMatchAccountData; }
      RefreshRateLimit(clock);
      if lastBalance != balance {
        var previous := lastBalance;
        if balance > lastBalance {
          r := UpdateForInflow(clock, balance - previous);
          if !r.Ok? { return; }
          log.Emit(AccountingEvent(controller, OfReserve(key), mint, Sync, balance - previous, Credit));
        } else {
          r := UpdateForOutflow(clock, previous - balance, true);
          if !r.Ok? { return; }
          log.Emit(AccountingEvent(controller, OfReserve(key), mint, Sync, previous - balance, Debit));
        }
      }
      return Ok;
    }
  }

  class Integration {
    const controller: Pubkey
    const hash: nat
    const config: IntegrationConfig
    const permitLiquidation: bool
    var description: string
    var status: AccountStatus
    var rateLimitSlope: u64
    var rateLimitMaxOutflow: u64
    var rateLimitOutflowAmountAvailable: u64
    var rateLimitRemainder: u64
    var lastRefreshTimestamp: timestamp
    var lastRefreshSlot: u64
    var state: IntegrationState

    constructor Load(d: IntegrationData)
      ensures View() == d
    {
      controller, hash, config, permitLiquidation := d.controller, d.hash, d.config, d.permitLiquidation;
      description, status, state := d.description, d.status, d.state;
      rateLimitSlope, rateLimitMaxOutflow := d.limit.slope, d.limit.max;
      rateLimitOutflowAmountAvailable, rateLimitRemainder := d.limit.available, d.limit.remainder;
      lastRefreshTimestamp, lastRefreshSlot := d.limit.lastTs, d.limit.lastSlot;
    }

    function Limit(): Bucket
      reads this
    {
      Bucket(rateLimitSlope, rateLimitMaxOutflow, rateLimitOutflowAmountAvailable, rateLimitRemainder,
             lastRefreshTimestamp, lastRefreshSlot)
    }

    function View(): IntegrationData
      reads this
    {
      IntegrationData(controller, description, hash, status, Limit(), config, state, permitLiquidation)
    }

    method RefreshRateLimit(clock: Clock)
      requires lastRefreshTimestamp <= clock.ts
      modifies this
      ensures View() == old(View()).(limit := Refreshed(old(Limit()), clock))
    {
      if rateLimitMaxOutflow != U64_MAX && lastRefreshTimestamp != clock.ts {
        var (increment, remainder) :=
          CalculateRateLimitIncrement(clock.ts, lastRefreshTimestamp, rateLimitSlope, rateLimitRemainder);
        rateLimitOutflowAmountAvailable :=
          Min(SaturatingAdd(rateLimitOutflowAmountAvailable, increment), rateLimitMaxOutflow);
        rateLimitRemainder := if rateLimitOutflowAmountAvailable == rateLimitMaxOutflow then 0 else remainder;
      }
      lastRefreshTimestamp := clock.ts;
      lastRefreshSlot := clock.slot;
    }

    method UpdateAndSave(status: Option<AccountStatus>, description: Option<string>,
                         slope: Option<u64>, maxOutflow: Option<u64>, clock: Clock)
      requires ValidLimit(Limit(), clock)
      modifies this
      ensures View() == old(View()).(status := if status.Some? then status.value else old(this.status),
                                     description := if description.Some? then description.value else old(this.description),
                                     limit := UpdatedLimit(old(Limit()), clock, slope, maxOutflow))
      ensures Reparametrized(old(Limit()), Limit(), clock, slope, maxOutflow)
    {
      OperationsKeepValid(Limit(), clock, 0, None, None);
      ParametersExact(Limit(), clock, slope, maxOutflow);
      RefreshRateLimit(clock);
      if status.Some? { this.status := status.value; }
      if slope.Some? { rateLimitSlope := slope.value; }
      if description.Some? { this.description := description.value; }
      if maxOutflow.Some? {
        var gap := rateLimitMaxOutflow - rateLimitOutflowAmountAvailable;
        rateLimitMaxOutflow := maxOutflow.value;
        rateLimitOutflowAmountAvailable := SaturatingSub(rateLimitMaxOutflow, gap);
        if gap > rateLimitMaxOutflow { rateLimitRemainder := 0; }
      }
    }

    method UpdateRateLimitForInflow(clock: Clock, inflow: u64) returns (r: Outcome)
      modifies this
      ensures r.Ok? <==> old(Limit()).IsFresh(clock)
      ensures r.Ok? ==> View() == old(View()).(limit := WithInflow(old(Limit()), inflow))
    {
      if !(lastRefreshTimestamp == clock.ts && lastRefreshSlot == clock.slot) { return InvalidArgument; }
      rateLimitOutflowAmountAvailable :=
        Min(rateLimitMaxOutflow, SaturatingAdd(rateLimitOutflowAmountAvailable, inflow));
      return Ok;
    }

    method UpdateRateLimitForOutflow(clock: Clock, outflow: u64) returns (r: Outcome)
      modifies this
      ensures r.Ok? <==> old(Limit()).IsFresh(clock) && outflow <= old(rateLimitOutflowAmountAvailable)
      ensures r.Ok? ==> View() == old(View()).(limit := WithOutflow(old(Limit()), outflow))
    {
      if !(lastRefreshTimestamp == clock.ts && lastRefreshSlot == clock.slot) { return InvalidArgument; }
      if outflow > rateLimitOutflowAmountAvailable { return RateLimited; }
      rateLimitOutflowAmountAvailable := rateLimitOutflowAmountAvailable - outflow;
      return Ok;
    }

    predicate HasSwapStarted()
      reads this
    {
      state.AtomicSwapState? && state.amountBorrowed != 0
    }

    /** Clears what a borrow recorded. */
    method ResetSwap()
      requires state.AtomicSwapState?
      modifies this`state
      ensures state == NO_SWAP && !HasSwapStarted()
    {
      state := state.(lastBalanceA := 0, lastBalanceB := 0, amountBorrowed := 0);
      state := state.(recipientTokenAPre := 0, recipientTokenBPre := 0);
    }
  }
}
