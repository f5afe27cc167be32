/**
 The rate limiter at work: what any run of the program lets out of a reserve, or through an integration,
 is bounded by its bucket, whichever handlers let it out and however its parameters change on the way.
 */
module Limits {
  import opened Words
  import opened RateLimit
  import opened Accounts
  import opened Introspection
  import opened Handlers
  import opened Machine
  import opened SwapOutcome
  import opened Replay
  import opened Runs
  import Transactions

  /** Operations at one instant that leave the parameters alone let `spent` out and `received` in. */
  ghost predicate FlowsAt(b: Bucket, b': Bucket, at: timestamp, spent: nat, received: nat) {
    exists ops, t :: FixedLimits(ops) && Evolves(b, b', at, at, ops, t) && t.spent == spent && t.received == received
  }

  lemma FlowsNot(b: Bucket, clock: Clock)
    requires ValidLimit(b, clock)
    ensures FlowsAt(b, b, clock.ts, 0, 0)
  {
    EvolvesNot(b, clock.ts);
    assert FixedLimits([]) && Evolves(b, b, clock.ts, clock.ts, [], NOTHING);
  }

  lemma FlowsOne(b: Bucket, op: Op)
    requires b.Valid() && b.lastTs <= op.clock.ts && !op.SetLimits?
    ensures FlowsAt(b, Step(b, op), op.clock.ts, Spent(b, op), Received(b, op))
  {
    EvolvesByOne(b, op);
    assert FixedLimits([op]) && Evolves(b, Step(b, op), op.clock.ts, op.clock.ts, [op], StepTotals(b, op));
  }

  lemma FlowsOn(b: Bucket, b1: Bucket, b2: Bucket, at: timestamp, spent: nat, received: nat, spent2: nat,
                received2: nat)
    requires FlowsAt(b, b1, at, spent, received) && FlowsAt(b1, b2, at, spent2, received2)
    ensures FlowsAt(b, b2, at, spent + spent2, received + received2)
  {
    hide Evolves;
    var first, t :|
      FixedLimits(first) && Evolves(b, b1, at, at, first, t) && t.spent == spent && t.received == received;
    var second, u :|
      FixedLimits(second) && Evolves(b1, b2, at, at, second, u) && u.spent == spent2 && u.received == received2;
    EvolvesOn(b, b1, b2, at, at, at, at, first, second, t, u);
    assert FixedLimits(first + second) && Evolves(b, b2, at, at, first + second, t.Plus(u));
  }

  ghost function CapRaise(b: Bucket, b': Bucket): nat {
    Max(b'.max - b.max, 0)
  }

  /** What accrues between two refreshes at the slope in force, in 1/86400ths. */
  ghost function Accrual(b: Bucket, b': Bucket): nat {
    AccrualIsNonNegative(b.slope, Max(b'.lastTs - b.lastTs, 0));
    b.slope * Max(b'.lastTs - b.lastTs, 0)
  }

  /** A call at one instant, whatever it does to the parameters: `spent` goes out, `received` comes in, the
      cap rises by what it has risen, and what accrues does so at the slope the call found. */
  ghost predicate CallFlows(b: Bucket, b': Bucket, at: timestamp, spent: nat, received: nat) {
    exists ops ::
      && SlopesWithin(ops, b'.slope)
      && Evolves(b, b', at, at, ops, Totals(spent, received, CapRaise(b, b'), Accrual(b, b')))
  }

  lemma PlainCallFlows(b: Bucket, b': Bucket, at: timestamp, spent: nat, received: nat)
    requires FlowsAt(b, b', at, spent, received)
    ensures CallFlows(b, b', at, spent, received)
  {
    var ops, t :| FixedLimits(ops) && Evolves(b, b', at, at, ops, t) && t.spent == spent && t.received == received;
    FixedLimitsTotals(b, ops);
    assert t == Totals(spent, received, CapRaise(b, b'), Accrual(b, b'));
    assert SlopesWithin(ops, b'.slope);
  }

  /** Setting parameters refreshes first, at the old slope. */
  lemma SettingFlows(b: Bucket, clock: Clock, slope: Option<u64>, max: Option<u64>)
    requires ValidLimit(b, clock)
    ensures CallFlows(b, UpdatedLimit(b, clock, slope, max), clock.ts, 0, 0)
  {
    var op := SetLimits(clock, slope, max);
    var b' := Step(b, op);
    assert b' == UpdatedLimit(b, clock, slope, max);
    EvolvesByOne(b, op);
    SettingTotals(b, clock, slope, max);
    assert SlopesWithin([op], b'.slope);
  }

  lemma SettingTotals(b: Bucket, clock: Clock, slope: Option<u64>, max: Option<u64>)
    requires ValidLimit(b, clock)
    ensures var op := SetLimits(clock, slope, max); var b' := Step(b, op);
            && StepTotals(b, op) == Totals(0, 0, CapRaise(b, b'), Accrual(b, b'))
            && (slope.Some? ==> slope.value == b'.slope)
  {
  }

  lemma SyncFlows(r: ReserveData, clock: Clock, balance: u64)
    requires ValidLimit(r.limit, clock)
    ensures FlowsAt(r.limit, SyncedReserve(r, clock, balance).limit, clock.ts, 0, Max(balance - r.lastBalance, 0))
  {
    hide FlowsAt, Refreshed;
    OperationsKeepValid(r.limit, clock, 0, None, None);
    var limit := Refreshed(r.limit, clock);
    assert limit.IsFresh(clock) && ValidLimit(limit, clock) by {
      FlowsValid(r.limit, clock, 0); RefreshIsFresh(r.limit, clock);
    }
    FlowsOne(r.limit, Refresh(clock));
    if balance > r.lastBalance {
      FlowsOne(limit, Inflow(clock, balance - r.lastBalance));
      FlowsOn(r.limit, limit, WithInflow(limit, balance - r.lastBalance), clock.ts, 0, 0, 0, balance - r.lastBalance);
    } else if balance < r.lastBalance {
      FlowsOne(limit, Loss(clock, r.lastBalance - balance));
      FlowsOn(r.limit, limit, WithLoss(limit, r.lastBalance - balance), clock.ts, 0, 0, 0, 0);
    }
  }

  /** A sync, then an outflow of `amount`. */
  lemma SyncThenOut(r: ReserveData, clock: Clock, balance: u64, amount: u64)
    requires ValidLimit(r.limit, clock) && amount <= SyncedReserve(r, clock, balance).limit.available
    ensures FlowsAt(r.limit, WithOutflow(SyncedReserve(r, clock, balance).limit, amount), clock.ts,
                    amount, Max(balance - r.lastBalance, 0))
  {
    hide FlowsAt, SyncedReserve;
    var limit := SyncedReserve(r, clock, balance).limit;
    SyncFlows(r, clock, balance);
    SyncedReserveValid(r, clock, balance);
    FlowsOne(limit, Outflow(clock, amount));
    FlowsOn(r.limit, limit, WithOutflow(limit, amount), clock.ts, 0, Max(balance - r.lastBalance, 0), amount, 0);
  }

  /** A sync, then an inflow of `amount`. */
  lemma SyncThenIn(r: ReserveData, clock: Clock, balance: u64, amount: u64)
    requires ValidLimit(r.limit, clock)
    ensures FlowsAt(r.limit, WithInflow(SyncedReserve(r, clock, balance).limit, amount), clock.ts,
                    0, Max(balance - r.lastBalance, 0) + amount)
  {
    hide FlowsAt, SyncedReserve;
    var limit := SyncedReserve(r, clock, balance).limit;
    SyncFlows(r, clock, balance);
    SyncedReserveValid(r, clock, balance);
    FlowsOne(limit, Inflow(clock, amount));
    FlowsOn(r.limit, limit, WithInflow(limit, amount), clock.ts, 0, Max(balance - r.lastBalance, 0), 0, amount);
  }

  /** A refresh, then an outflow or an inflow of `amount`. */
  lemma RefreshThenOut(b: Bucket, clock: Clock, amount: u64)
    requires ValidLimit(b, clock) && amount <= Refreshed(b, clock).available
    ensures FlowsAt(b, WithOutflow(Refreshed(b, clock), amount), clock.ts, amount, 0)
  {
    hide FlowsAt, Refreshed;
    var b1 := Refreshed(b, clock);
    FlowsValid(b, clock, 0);
    RefreshIsFresh(b, clock);
    FlowsOne(b, Refresh(clock));
    FlowsOne(b1, Outflow(clock, amount));
    FlowsOn(b, b1, WithOutflow(b1, amount), clock.ts, 0, 0, amount, 0);
  }

  lemma RefreshThenIn(b: Bucket, clock: Clock, amount: u64)
    requires ValidLimit(b, clock)
    ensures FlowsAt(b, Refreshed(b, clock), clock.ts, 0, 0)
    ensures FlowsAt(b, WithInflow(Refreshed(b, clock), amount), clock.ts, 0, amount)
  {
    hide FlowsAt, Refreshed;
    var b1 := Refreshed(b, clock);
    FlowsValid(b, clock, 0);
    RefreshIsFresh(b, clock);
    FlowsOne(b, Refresh(clock));
    FlowsOne(b1, Inflow(clock, amount));
    FlowsOn(b, b1, WithInflow(b1, amount), clock.ts, 0, 0, 0, amount);
  }

  // ---------- what a call lets out and takes in ----------

  /** Pushes and borrows let tokens out of the vault of the reserve they name: what the ledger says is gone. */
  ghost function LeftVault(w: World, c: Call, w': World): nat {
    var a := c.ix.accounts;
    if (c.Disc() == PUSH_DISC || c.IsBorrow()) && |a| > 5 && a[5] in w.reserves
       && w.reserves[a[5]].vault in w.tokens && w.reserves[a[5]].vault in w'.tokens
    then Max(VaultBalance(w, a[5]) - w'.tokens[w.reserves[a[5]].vault].amount, 0) else 0
  }

  /** Calls that sync reserve `k` first. */
  predicate Syncs(c: Call, k: Pubkey) {
    var a := c.ix.accounts;
    || (c.Disc() == 8 && |a| > 2 && k == a[2])
    || (c.Disc() == 9 && |a| > 4 && k == a[4])
    || (c.Disc() in {PUSH_DISC, PULL_DISC, ATOMIC_SWAP_BORROW_DISC} && |a| > 5 && k == a[5])
    || (c.IsBorrow() && |a| > 8 && k == a[8])
  }

  /** What a call adds to the cached balance of a reserve, after the sync if it syncs the reserve. */
  ghost function Added(w: World, c: Call, w': World, k: Pubkey): nat {
    if k in w.reserves && w.reserves[k].vault in w.tokens && k in w'.reserves then
      Max(w'.reserves[k].lastBalance - if Syncs(c, k) then VaultBalance(w, k) else w.reserves[k].lastBalance, 0)
    else 0
  }

  /** What a sync finds in the vault above the cached balance. */
  ghost function FoundBySync(w: World, c: Call, k: Pubkey): nat {
    if k in w.reserves && w.reserves[k].vault in w.tokens && Syncs(c, k)
    then Max(VaultBalance(w, k) - w.reserves[k].lastBalance, 0) else 0
  }

  /** The integration a call returns tokens through, and the reserve they return to. */
  function ReturnsThrough(c: Call): Option<(Pubkey, Pubkey)> {
    var a := c.ix.accounts;
    if c.Disc() == 9 && |a| > 4 then Some((a[3], a[4]))
    else if c.Disc() == PULL_DISC && |a| > 5 then Some((a[4], a[5]))
    else if c.IsRepay() && |a| > 6 then Some((a[5], a[6]))
    else None
  }

  /** What a call lets out of a reserve, or through an integration. */
  ghost function LetOut(w: World, c: Call, w': World, s: Subject): nat {
    var a := c.ix.accounts;
    match s
    case OfReserve(k) => if |a| > 5 && k == a[5] then LeftVault(w, c, w') else 0
    case OfIntegration(i) => if |a| > 5 && i == a[4] then LeftVault(w, c, w') else 0
  }

  /** What a call takes into a reserve, or back through an integration. */
  ghost function TakenIn(w: World, c: Call, w': World, s: Subject): nat {
    match s
    case OfReserve(k) => FoundBySync(w, c, k) + Added(w, c, w', k)
    case OfIntegration(i) =>
      var through := ReturnsThrough(c);
      if through.Some? && i == through.value.0 then Added(w, c, w', through.value.1) else 0
  }

  /** Reserves and integrations each have a limit of their own. */
  predicate HasLimit(w: World, s: Subject) {
    match s
    case OfReserve(k) => k in w.reserves
    case OfIntegration(i) => i in w.integrations
  }

  function LimitOf(w: World, s: Subject): Bucket
    requires HasLimit(w, s)
  {
    match s
    case OfReserve(k) => w.reserves[k].limit
    case OfIntegration(i) => w.integrations[i].limit
  }

  ghost predicate Flows(w: World, c: Call, w': World, s: Subject)
    requires HasLimit(w, s) && HasLimit(w', s)
  {
    CallFlows(LimitOf(w, s), LimitOf(w', s), w.clock.ts, LetOut(w, c, w', s), TakenIn(w, c, w', s))
  }

  // ---------- reserves, call by call ----------

  ghost predicate ReserveFlows(w: World, c: Call, w': World, k: Pubkey)
    requires k in w.reserves && k in w'.reserves
  {
    FlowsAt(w.reserves[k].limit, w'.reserves[k].limit, w.clock.ts,
            LetOut(w, c, w', OfReserve(k)), TakenIn(w, c, w', OfReserve(k)))
  }

  lemma OtherReserveFlows(w: World, c: Call, w': World, k: Pubkey)
    requires ValidWorld(w) && k in w.reserves && k in w'.reserves && w'.reserves[k] == w.reserves[k]
    requires !Syncs(c, k)
    ensures ReserveFlows(w, c, w', k)
  {
    hide FlowsAt, IntegrationsValid, OneReservePerMint;
    ReserveLimitValid(w, k);
    FlowsNot(w.reserves[k].limit, w.clock);
  }

  lemma SyncReserveFlows(w: World, c: Call, w': World, k: Pubkey)
    requires Ready(w, c) && c.Disc() == 8 && SyncReserveStep(w, c, w') && k in w.reserves
    ensures k in w'.reserves && ReserveFlows(w, c, w', k)
  {
    hide FlowsAt, SyncedReserve, SyncEvents, ReservesValid, IntegrationsValid, VaultsOpen;
    ReserveLimitValid(w, c.ix.accounts[2]);
    if k == c.ix.accounts[2] {
      SyncFlows(w.reserves[k], w.clock, VaultBalance(w, k));
    } else {
      OtherReserveFlows(w, c, w', k);
    }
  }

  lemma PaidOutFlows(w: World, c: Call, tokens: Ledger, amount: u64, state: IntegrationState, action: AccountingAction,
                     k: Pubkey)
    requires Ready(w, c) && c.Disc() == PUSH_DISC && OuterOk(w, c.ix.accounts)
    requires CanPayOut(w, c.ix.accounts, tokens, amount) && k in w.reserves
    ensures var w' := PaidOut(w, c.ix.accounts, tokens, amount, state, action);
            k in w'.reserves && ReserveFlows(w, c, w', k)
  {
    hide FlowsAt, SyncedReserve, SyncEvents, ReservesValid, IntegrationsValid, VaultsOpen, Refreshed, WithOutflow;
    ReserveLimitValid(w, c.ix.accounts[5]);
    if k == c.ix.accounts[5] {
      SyncThenOut(w.reserves[k], w.clock, VaultBalance(w, k), amount);
    } else {
      OtherReserveFlows(w, c, PaidOut(w, c.ix.accounts, tokens, amount, state, action), k);
    }
  }

  lemma PushFlows(w: World, c: Call, w': World, k: Pubkey)
    requires Ready(w, c) && c.Disc() == PUSH_DISC && k in w.reserves
    requires PushSplTokenExternalStep(w, c, w') || PushLzBridgeStep(w, c, w')
    ensures k in w'.reserves && ReserveFlows(w, c, w', k)
  {
    hide ReserveFlows, CanPayOut, PaidOut, SendFollows, CanSend, Sent, ReservesValid, IntegrationsValid, VaultsOpen;
    var a := c.ix.accounts;
    var amount := c.ix.data.args.amount;
    if PushSplTokenExternalStep(w, c, w') {
      PaidOutFlows(w, c, Sent(w, a[8], a[10], a[7], amount, c.env), amount, w.integrations[a[4]].state, ExternalTransfer, k);
    } else {
      PaidOutFlows(w, c, Sent(w, a[8], a[9], a[7], amount, c.env), amount, LzBridgeState(true), BridgeSend, k);
    }
  }

  lemma PushKaminoFlows(w: World, c: Call, w': World, k: Pubkey)
    requires Ready(w, c) && c.Disc() == PUSH_DISC && PushKaminoStep(w, c, w') && k in w.reserves
    ensures k in w'.reserves && ReserveFlows(w, c, w', k)
  {
    hide FlowsAt, SyncedReserve, SyncEvents, ReservesValid, IntegrationsValid, Refreshed, WithOutflow, LendingSyncEvents,
      Klend.LendingBalance;
    ReserveLimitValid(w, c.ix.accounts[5]);
    IntegrationLimitValid(w, c.ix.accounts[4]);
    if k == c.ix.accounts[5] {
      SyncThenOut(w.reserves[k], w.clock, VaultBalance(w, k), TakenByCpi(w, k, c.env));
    } else {
      OtherReserveFlows(w, c, w', k);
    }
  }

  lemma PullKaminoFlows(w: World, c: Call, w': World, k: Pubkey)
    requires Ready(w, c) && c.Disc() == PULL_DISC && PullKaminoStep(w, c, w') && k in w.reserves
    ensures k in w'.reserves && ReserveFlows(w, c, w', k)
  {
    hide FlowsAt, SyncedReserve, SyncEvents, ReservesValid, IntegrationsValid, Refreshed, WithInflow, LendingSyncEvents,
      Klend.LendingBalance;
    ReserveLimitValid(w, c.ix.accounts[5]);
    IntegrationLimitValid(w, c.ix.accounts[4]);
    if k == c.ix.accounts[5] {
      SyncThenIn(w.reserves[k], w.clock, VaultBalance(w, k), AddedByCpi(w, k, c.env));
    } else {
      OtherReserveFlows(w, c, w', k);
    }
  }

  lemma SyncKaminoFlows(w: World, c: Call, w': World, k: Pubkey)
    requires Ready(w, c) && c.Disc() == 9 && SyncKaminoStep(w, c, w') && k in w.reserves
    ensures k in w'.reserves && ReserveFlows(w, c, w', k)
  {
    hide FlowsAt, SyncedReserve, SyncEvents, ReservesValid, IntegrationsValid, Refreshed, WithInflow, LendingSyncEvents,
      Klend.LendingBalance;
    ReserveLimitValid(w, c.ix.accounts[4]);
    IntegrationLimitValid(w, c.ix.accounts[3]);
    if k == c.ix.accounts[4] {
      if HarvestedMint(c.ix.accounts, c.env.market) == Some(w.reserves[k].mint) {
        SyncThenIn(w.reserves[k], w.clock, VaultBalance(w, k), AddedByCpi(w, k, c.env));
      } else {
        SyncFlows(w.reserves[k], w.clock, VaultBalance(w, k));
      }
    } else {
      OtherReserveFlows(w, c, w', k);
    }
  }

  /** The loan goes to an account that is not the vault. */
  lemma BorrowLeavesVault(w: World, c: Call, w': World)
    requires Ready(w, c) && c.Disc() == ATOMIC_SWAP_BORROW_DISC && BorrowStep(w, c, w')
    ensures LeftVault(w, c, w') == c.ix.data.args.amount
  {
    hide SyncedReserve, SyncEvents, ReservesValid, IntegrationsValid, VaultsOpen, Refreshed, WithOutflow;
    ReserveLimitValid(w, c.ix.accounts[5]);
  }

  lemma BorrowFlows(w: World, c: Call, w': World, k: Pubkey)
    requires Ready(w, c) && c.Disc() == ATOMIC_SWAP_BORROW_DISC && BorrowStep(w, c, w') && k in w.reserves
    ensures k in w'.reserves && ReserveFlows(w, c, w', k)
  {
    hide FlowsAt, SyncedReserve, SyncEvents, ReservesValid, IntegrationsValid, VaultsOpen, Refreshed, WithOutflow,
      RepayFollows, Transferred;
    var a := c.ix.accounts;
    SwapReservesDiffer(w, a[4], a[5], a[8]);
    ReserveLimitValid(w, a[5]);
    ReserveLimitValid(w, a[8]);
    IntegrationLimitValid(w, a[4]);
    BorrowLeavesVault(w, c, w');
    if k == a[5] {
      SyncThenOut(w.reserves[k], w.clock, VaultBalance(w, k), c.ix.data.args.amount);
    } else if k == a[8] {
      SyncFlows(w.reserves[k], w.clock, VaultBalance(w, k));
    } else {
      OtherReserveFlows(w, c, w', k);
    }
  }

  lemma RepayFlows(w: World, c: Call, w': World, k: Pubkey)
    requires Ready(w, c) && c.Disc() == ATOMIC_SWAP_REPAY_DISC && RepayStep(w, c, w') && k in w.reserves
    ensures k in w'.reserves && ReserveFlows(w, c, w', k)
  {
    hide FlowsAt, ReservesValid, IntegrationsValid, WithInflow, Settle, CanSettle;
    var a := c.ix.accounts;
    var s := Settle(w, a, c.env);
    SwapReservesDiffer(w, a[5], a[6], a[9]);
    IntegrationLimitValid(w, a[5]);
    ReserveLimitValid(w, k);
    if k == a[6] {
      FlowsOne(w.reserves[k].limit, Inflow(w.clock, s.returned));
    } else if k == a[9] {
      FlowsOne(w.reserves[k].limit, Inflow(w.clock, s.gained));
    } else {
      OtherReserveFlows(w, c, w', k);
    }
  }

  lemma InitializeReserveFlows(w: World, c: Call, w': World, k: Pubkey)
    requires Ready(w, c) && c.Disc() == 4 && InitializeReserveStep(w, c, w') && k in w.reserves
    ensures k in w'.reserves && ReserveFlows(w, c, w', k)
  {
    hide FlowsAt, SyncedReserve, SyncEvents, ReservesValid, IntegrationsValid, VaultsOpen;
    OtherReserveFlows(w, c, w', k);
  }

  lemma ReservePlainFlows(w: World, c: Call, w': World, k: Pubkey)
    requires k in w.reserves && k in w'.reserves && ReserveFlows(w, c, w', k)
    ensures Flows(w, c, w', OfReserve(k))
  {
    hide FlowsAt, CallFlows;
    PlainCallFlows(w.reserves[k].limit, w'.reserves[k].limit, w.clock.ts,
                   LetOut(w, c, w', OfReserve(k)), TakenIn(w, c, w', OfReserve(k)));
  }

  lemma ManageReserveFlows(w: World, c: Call, w': World, k: Pubkey)
    requires Ready(w, c) && c.Disc() == 5 && ManageReserveStep(w, c, w') && k in w.reserves
    ensures k in w'.reserves && Flows(w, c, w', OfReserve(k))
  {
    hide FlowsAt, CallFlows, UpdatedLimit, ReservesValid, IntegrationsValid, VaultsOpen;
    var a, args := c.ix.accounts, c.ix.data.args;
    ReserveLimitValid(w, k);
    if k == a[4] {
      SettingFlows(w.reserves[k].limit, w.clock, args.newSlope, args.newMax);
    } else {
      OtherReserveFlows(w, c, w', k);
      ReservePlainFlows(w, c, w', k);
    }
  }

  /** Any call, on any reserve: its bucket lets out exactly what the call lets out of the vault, takes in
      exactly what comes in, and changes its parameters and accrues as `CallFlows` says. */
  lemma ExecutesReserveFlows(w: World, c: Call, w': World, k: Pubkey)
    requires Ready(w, c) && Executes(w, c, w') && k in w.reserves
    ensures k in w'.reserves && Flows(w, c, w', OfReserve(k))
  {
    hide ValidWorld, Effects, ReserveFlows, Flows, InitializeControllerStep, ManageControllerStep,
      ManagePermissionStep, InitializeReserveStep, ManageReserveStep, InitializeIntegrationStep,
      ManageIntegrationStep, SyncReserveStep, SyncKaminoStep, PushSplTokenExternalStep, PushLzBridgeStep,
      PushKaminoStep, PullKaminoStep, InitializeOracleStep, UpdateOracleStep, RefreshOracleStep, BorrowStep,
      RepayStep, ResetStep;
    if c.Disc() == 5 {
      ManageReserveFlows(w, c, w', k);
    } else {
      ExecutesPlainReserveFlows(w, c, w', k);
      ReservePlainFlows(w, c, w', k);
    }
  }

  lemma ExecutesPlainReserveFlows(w: World, c: Call, w': World, k: Pubkey)
    requires Ready(w, c) && Executes(w, c, w') && k in w.reserves && c.Disc() != 5
    ensures k in w'.reserves && ReserveFlows(w, c, w', k)
  {
    hide ValidWorld, Effects, ReserveFlows, InitializeControllerStep, ManageControllerStep, ManagePermissionStep,
      InitializeReserveStep, ManageReserveStep, InitializeIntegrationStep, ManageIntegrationStep, SyncReserveStep,
      SyncKaminoStep, PushSplTokenExternalStep, PushLzBridgeStep, PushKaminoStep, PullKaminoStep,
      InitializeOracleStep, UpdateOracleStep, RefreshOracleStep, BorrowStep, RepayStep, ResetStep;
    match c.ix.data.disc
    case 4 => InitializeReserveFlows(w, c, w', k);
    case 8 => SyncReserveFlows(w, c, w', k);
    case 9 => SyncKaminoFlows(w, c, w', k);
    case 10 =>
      if PushKaminoStep(w, c, w') {
        PushKaminoFlows(w, c, w', k);
      } else {
        PushFlows(w, c, w', k);
      }
    case 11 => PullKaminoFlows(w, c, w', k);
    case 15 => BorrowFlows(w, c, w', k);
    case 16 => RepayFlows(w, c, w', k);
    case _ =>
      ExecutesOk(w, c, w');
      EffectsUntouched(w, w', c);
      OtherReserveFlows(w, c, w', k);
  }

  // ---------- integrations, call by call ----------

  ghost predicate IntegrationFlows(w: World, c: Call, w': World, i: Pubkey)
    requires i in w.integrations && i in w'.integrations
  {
    FlowsAt(w.integrations[i].limit, w'.integrations[i].limit, w.clock.ts,
            LetOut(w, c, w', OfIntegration(i)), TakenIn(w, c, w', OfIntegration(i)))
  }

  /** A call that leaves the limit alone, on an integration it lets nothing through. */
  lemma OtherIntegrationFlows(w: World, c: Call, w': World, i: Pubkey)
    requires ValidWorld(w) && i in w.integrations && i in w'.integrations
    requires w'.integrations[i].limit == w.integrations[i].limit
    requires LetOut(w, c, w', OfIntegration(i)) == 0 && TakenIn(w, c, w', OfIntegration(i)) == 0
    ensures IntegrationFlows(w, c, w', i)
  {
    hide FlowsAt, ReservesValid, VaultsOpen, LetOut, TakenIn;
    IntegrationLimitValid(w, i);
    FlowsNot(w.integrations[i].limit, w.clock);
  }

  lemma PaidOutThrough(w: World, c: Call, tokens: Ledger, amount: u64, state: IntegrationState,
                       action: AccountingAction, i: Pubkey)
    requires Ready(w, c) && c.Disc() == PUSH_DISC && OuterOk(w, c.ix.accounts)
    requires CanPayOut(w, c.ix.accounts, tokens, amount) && i in w.integrations
    ensures var w' := PaidOut(w, c.ix.accounts, tokens, amount, state, action);
            i in w'.integrations && IntegrationFlows(w, c, w', i)
  {
    hide FlowsAt, SyncedReserve, SyncEvents, ReservesValid, IntegrationsValid, VaultsOpen, Refreshed, WithOutflow;
    ReserveLimitValid(w, c.ix.accounts[5]);
    IntegrationLimitValid(w, i);
    if i == c.ix.accounts[4] {
      RefreshThenOut(w.integrations[i].limit, w.clock, amount);
    } else {
      OtherIntegrationFlows(w, c, PaidOut(w, c.ix.accounts, tokens, amount, state, action), i);
    }
  }

  lemma PushThrough(w: World, c: Call, w': World, i: Pubkey)
    requires Ready(w, c) && c.Disc() == PUSH_DISC && i in w.integrations
    requires PushSplTokenExternalStep(w, c, w') || PushLzBridgeStep(w, c, w')
    ensures i in w'.integrations && IntegrationFlows(w, c, w', i)
  {
    hide IntegrationFlows, CanPayOut, PaidOut, SendFollows, CanSend, Sent, ReservesValid, IntegrationsValid, VaultsOpen;
    var a := c.ix.accounts;
    var amount := c.ix.data.args.amount;
    if PushSplTokenExternalStep(w, c, w') {
      PaidOutThrough(w, c, Sent(w, a[8], a[10], a[7], amount, c.env), amount, w.integrations[a[4]].state,
                     ExternalTransfer, i);
    } else {
      PaidOutThrough(w, c, Sent(w, a[8], a[9], a[7], amount, c.env), amount, LzBridgeState(true), BridgeSend, i);
    }
  }

  lemma PushKaminoThrough(w: World, c: Call, w': World, i: Pubkey)
    requires Ready(w, c) && c.Disc() == PUSH_DISC && PushKaminoStep(w, c, w') && i in w.integrations
    ensures i in w'.integrations && IntegrationFlows(w, c, w', i)
  {
    hide FlowsAt, SyncedReserve, SyncEvents, ReservesValid, IntegrationsValid, Refreshed, WithOutflow, LendingSyncEvents,
      Klend.LendingBalance;
    ReserveLimitValid(w, c.ix.accounts[5]);
    IntegrationLimitValid(w, c.ix.accounts[4]);
    if i == c.ix.accounts[4] {
      RefreshThenOut(w.integrations[i].limit, w.clock, TakenByCpi(w, c.ix.accounts[5], c.env));
    } else {
      OtherIntegrationFlows(w, c, w', i);
    }
  }

  lemma PullKaminoThrough(w: World, c: Call, w': World, i: Pubkey)
    requires Ready(w, c) && c.Disc() == PULL_DISC && PullKaminoStep(w, c, w') && i in w.integrations
    ensures i in w'.integrations && IntegrationFlows(w, c, w', i)
  {
    hide FlowsAt, SyncedReserve, SyncEvents, ReservesValid, IntegrationsValid, Refreshed, WithInflow, LendingSyncEvents,
      Klend.LendingBalance;
    ReserveLimitValid(w, c.ix.accounts[5]);
    IntegrationLimitValid(w, c.ix.accounts[4]);
    if i == c.ix.accounts[4] {
      RefreshThenIn(w.integrations[i].limit, w.clock, AddedByCpi(w, c.ix.accounts[5], c.env));
    } else {
      OtherIntegrationFlows(w, c, w', i);
    }
  }

  lemma SyncKaminoThrough(w: World, c: Call, w': World, i: Pubkey)
    requires Ready(w, c) && c.Disc() == 9 && SyncKaminoStep(w, c, w') && i in w.integrations
    ensures i in w'.integrations && IntegrationFlows(w, c, w', i)
  {
    hide FlowsAt, SyncedReserve, SyncEvents, ReservesValid, IntegrationsValid, Refreshed, WithInflow, LendingSyncEvents,
      HarvestEvents, Klend.LendingBalance;
    ReserveLimitValid(w, c.ix.accounts[4]);
    IntegrationLimitValid(w, c.ix.accounts[3]);
    if i == c.ix.accounts[3] {
      RefreshThenIn(w.integrations[i].limit, w.clock, AddedByCpi(w, c.ix.accounts[4], c.env));
    } else {
      OtherIntegrationFlows(w, c, w', i);
    }
  }

  lemma BorrowThrough(w: World, c: Call, w': World, i: Pubkey)
    requires Ready(w, c) && c.Disc() == ATOMIC_SWAP_BORROW_DISC && BorrowStep(w, c, w') && i in w.integrations
    ensures i in w'.integrations && IntegrationFlows(w, c, w', i)
  {
    hide FlowsAt, SyncedReserve, SyncEvents, ReservesValid, IntegrationsValid, VaultsOpen, Refreshed, WithOutflow,
      RepayFollows, Transferred, LeftVault;
    var a := c.ix.accounts;
    IntegrationLimitValid(w, a[4]);
    BorrowLeavesVault(w, c, w');
    if i == a[4] {
      RefreshThenOut(w.integrations[i].limit, w.clock, c.ix.data.args.amount);
    } else {
      OtherIntegrationFlows(w, c, w', i);
    }
  }

  lemma RepayThrough(w: World, c: Call, w': World, i: Pubkey)
    requires Ready(w, c) && c.Disc() == ATOMIC_SWAP_REPAY_DISC && RepayStep(w, c, w') && i in w.integrations
    ensures i in w'.integrations && IntegrationFlows(w, c, w', i)
  {
    hide FlowsAt, ReservesValid, IntegrationsValid, WithInflow, Settle, CanSettle;
    var a := c.ix.accounts;
    var s := Settle(w, a, c.env);
    SwapReservesDiffer(w, a[5], a[6], a[9]);
    IntegrationLimitValid(w, a[5]);
    VaultMint(w, a[6]);
    if i == a[5] {
      FlowsOne(w.integrations[i].limit, Inflow(w.clock, s.returned));
    } else {
      OtherIntegrationFlows(w, c, w', i);
    }
  }

  lemma ResetThrough(w: World, c: Call, w': World, i: Pubkey)
    requires Ready(w, c) && c.Disc() == RESET_LZ_PUSH_IN_FLIGHT_DISC && ResetStep(w, c, w') && i in w.integrations
    ensures i in w'.integrations && IntegrationFlows(w, c, w', i)
  {
    hide FlowsAt, ReservesValid, IntegrationsValid, VaultsOpen;
    OtherIntegrationFlows(w, c, w', i);
  }

  lemma InitializeIntegrationFlows(w: World, c: Call, w': World, i: Pubkey)
    requires Ready(w, c) && c.Disc() == 6 && InitializeIntegrationStep(w, c, w') && i in w.integrations
    ensures i in w'.integrations && IntegrationFlows(w, c, w', i)
  {
    hide FlowsAt, ReservesValid, IntegrationsValid, VaultsOpen;
    OtherIntegrationFlows(w, c, w', i);
  }

  lemma IntegrationPlainFlows(w: World, c: Call, w': World, i: Pubkey)
    requires i in w.integrations && i in w'.integrations && IntegrationFlows(w, c, w', i)
    ensures Flows(w, c, w', OfIntegration(i))
  {
    hide FlowsAt, CallFlows;
    PlainCallFlows(w.integrations[i].limit, w'.integrations[i].limit, w.clock.ts,
                   LetOut(w, c, w', OfIntegration(i)), TakenIn(w, c, w', OfIntegration(i)));
  }

  lemma ManageIntegrationFlows(w: World, c: Call, w': World, i: Pubkey)
    requires Ready(w, c) && c.Disc() == 7 && ManageIntegrationStep(w, c, w') && i in w.integrations
    ensures i in w'.integrations && Flows(w, c, w', OfIntegration(i))
  {
    hide FlowsAt, CallFlows, UpdatedLimit, ReservesValid, IntegrationsValid, VaultsOpen;
    var a, args := c.ix.accounts, c.ix.data.args;
    IntegrationLimitValid(w, i);
    if i == a[4] {
      SettingFlows(w.integrations[i].limit, w.clock, args.newSlope, args.newMax);
    } else {
      OtherIntegrationFlows(w, c, w', i);
      IntegrationPlainFlows(w, c, w', i);
    }
  }

  lemma ExecutesPlainIntegrationFlows(w: World, c: Call, w': World, i: Pubkey)
    requires Ready(w, c) && Executes(w, c, w') && i in w.integrations && c.Disc() != 7
    ensures i in w'.integrations && IntegrationFlows(w, c, w', i)
  {
    hide ValidWorld, Effects, IntegrationFlows, InitializeControllerStep, ManageControllerStep, ManagePermissionStep,
      InitializeReserveStep, ManageReserveStep, InitializeIntegrationStep, ManageIntegrationStep, SyncReserveStep,
      SyncKaminoStep, PushSplTokenExternalStep, PushLzBridgeStep, PushKaminoStep, PullKaminoStep,
      InitializeOracleStep, UpdateOracleStep, RefreshOracleStep, BorrowStep, RepayStep, ResetStep;
    match c.ix.data.disc
    case 6 => InitializeIntegrationFlows(w, c, w', i);
    case 9 => SyncKaminoThrough(w, c, w', i);
    case 10 =>
      if PushKaminoStep(w, c, w') {
        PushKaminoThrough(w, c, w', i);
      } else {
        PushThrough(w, c, w', i);
      }
    case 11 => PullKaminoThrough(w, c, w', i);
    case 15 => BorrowThrough(w, c, w', i);
    case 16 => RepayThrough(w, c, w', i);
    case 17 => ResetThrough(w, c, w', i);
    case _ =>
      ExecutesOk(w, c, w');
      EffectsUntouched(w, w', c);
      OtherIntegrationFlows(w, c, w', i);
  }

  /** Any call, on the limit of any reserve or integration. */
  lemma ExecutesFlows(w: World, c: Call, w': World, s: Subject)
    requires Ready(w, c) && Executes(w, c, w') && HasLimit(w, s)
    ensures HasLimit(w', s) && Flows(w, c, w', s)
  {
    hide ValidWorld, Executes, IntegrationFlows, ManageIntegrationStep, CallFlows, LetOut, TakenIn;
    match s
    case OfReserve(k) => ExecutesReserveFlows(w, c, w', k);
    case OfIntegration(i) =>
      if c.Disc() == 7 {
        assert ManageIntegrationStep(w, c, w') by { IntegrationManaged(w, c, w'); }
        ManageIntegrationFlows(w, c, w', i);
      } else {
        ExecutesPlainIntegrationFlows(w, c, w', i);
        IntegrationPlainFlows(w, c, w', i);
      }
  }

  lemma IntegrationManaged(w: World, c: Call, w': World)
    requires Ready(w, c) && Executes(w, c, w') && c.Disc() == 7
    ensures ManageIntegrationStep(w, c, w')
  {
    hide ManageIntegrationStep, ValidWorld;
  }

  // ---------- runs ----------

  /** What one move of a run comes to for the limit of `s`. */
  ghost function MoveTotals(w: World, m: Move, w': World, s: Subject): Totals {
    if m.Did? && HasLimit(w, s) && HasLimit(w', s) then
      Totals(LetOut(w, m.call, w', s), TakenIn(w, m.call, w', s),
             CapRaise(LimitOf(w, s), LimitOf(w', s)), Accrual(LimitOf(w, s), LimitOf(w', s)))
    else NOTHING
  }

  /** What the first `n` moves come to: what they let out and take in, the cap raises, and what accrues
      from refresh to refresh, each time at the slope then in force. */
  ghost function TotalsOf(worlds: seq<World>, moves: seq<Move>, s: Subject, n: nat): Totals
    requires n <= |moves| < |worlds|
  {
    if n == 0 then NOTHING
    else TotalsOf(worlds, moves, s, n - 1).Plus(MoveTotals(worlds[n - 1], moves[n - 1], worlds[n], s))
  }

  /** No world along the way has a slope steeper than `steepest` for `s`. */
  ghost predicate NoSteeper(worlds: seq<World>, s: Subject, n: nat, steepest: u64)
    requires n < |worlds|
  {
    forall j :: 0 <= j <= n && HasLimit(worlds[j], s) ==> LimitOf(worlds[j], s).slope <= steepest
  }

  ghost predicate RunFlows(start: World, w: World, s: Subject, t: Totals, steepest: u64) {
    && HasLimit(start, s) && HasLimit(w, s) && start.clock.ts <= w.clock.ts
    && exists ops :: SlopesWithin(ops, steepest)
         && Evolves(LimitOf(start, s), LimitOf(w, s), start.clock.ts, w.clock.ts, ops, t)
  }

  lemma RunFlowsOn(start: World, w: World, w': World, s: Subject, t: Totals, steepest: u64, spent: nat, received: nat)
    requires RunFlows(start, w, s, t, steepest) && HasLimit(w', s) && w'.clock == w.clock
    requires CallFlows(LimitOf(w, s), LimitOf(w', s), w.clock.ts, spent, received)
    requires LimitOf(w', s).slope <= steepest
    ensures RunFlows(start, w', s, t.Plus(Totals(spent, received, CapRaise(LimitOf(w, s), LimitOf(w', s)),
                                                 Accrual(LimitOf(w, s), LimitOf(w', s)))), steepest)
  {
    hide Evolves, CapRaise, Accrual;
    var b, b1, b2 := LimitOf(start, s), LimitOf(w, s), LimitOf(w', s);
    var u := Totals(spent, received, CapRaise(b1, b2), Accrual(b1, b2));
    var first :| SlopesWithin(first, steepest) && Evolves(b, b1, start.clock.ts, w.clock.ts, first, t);
    var second :| SlopesWithin(second, b2.slope) && Evolves(b1, b2, w.clock.ts, w.clock.ts, second, u);
    EvolvesOn(b, b1, b2, start.clock.ts, w.clock.ts, w.clock.ts, w.clock.ts, first, second, t, u);
    assert SlopesWithin(first + second, steepest);
  }

  lemma RunFlowsWait(start: World, w: World, w': World, s: Subject, t: Totals, steepest: u64)
    requires RunFlows(start, w, s, t, steepest) && w'.reserves == w.reserves && w'.integrations == w.integrations
    requires w.clock.ts <= w'.clock.ts
    ensures RunFlows(start, w', s, t, steepest)
  {
    var b, b1 := LimitOf(start, s), LimitOf(w, s);
    var first :| SlopesWithin(first, steepest) && Evolves(b, b1, start.clock.ts, w.clock.ts, first, t);
    assert Evolves(b, b1, start.clock.ts, w'.clock.ts, first, t);
  }

  lemma LimitValid(w: World, s: Subject)
    requires ValidWorld(w) && HasLimit(w, s)
    ensures ValidLimit(LimitOf(w, s), w.clock)
  {
    match s
    case OfReserve(k) => ReserveLimitValid(w, k);
    case OfIntegration(i) => IntegrationLimitValid(w, i);
  }

  lemma RunFlowsFirst(w: World, s: Subject, steepest: u64)
    requires ValidWorld(w) && HasLimit(w, s)
    ensures RunFlows(w, w, s, NOTHING, steepest)
  {
    hide ValidWorld;
    LimitValid(w, s);
    EvolvesNot(LimitOf(w, s), w.clock.ts);
    assert SlopesWithin([], steepest);
  }

  lemma {:induction false} EveryRunFlows(worlds: seq<World>, moves: seq<Move>, s: Subject, n: nat, steepest: u64)
    requires IsRun(worlds, moves) && n <= |moves| && ValidWorld(worlds[0]) && HasLimit(worlds[0], s)
    requires NoSteeper(worlds, s, n, steepest)
    ensures ValidWorld(worlds[n])
    ensures RunFlows(worlds[0], worlds[n], s, TotalsOf(worlds, moves, s, n), steepest)
  {
    hide ValidWorld, Executes, RunFlows, LetOut, TakenIn, Effects, CallFlows, CapRaise, Accrual, Totals.Plus;
    if n == 0 {
      RunFlowsFirst(worlds[0], s, steepest);
    } else {
      EveryRunFlows(worlds, moves, s, n - 1, steepest);
      var w, w' := worlds[n - 1], worlds[n];
      var t := TotalsOf(worlds, moves, s, n - 1);
      assert Leads(w, moves[n - 1], w');
      RunFlowsLimit(worlds[0], w, s, t, steepest);
      match moves[n - 1]
      case Did(c) =>
        ExecutesOk(w, c, w');
        EffectsUntouched(w, w', c);
        ExecutesFlows(w, c, w', s);
        RunFlowsOn(worlds[0], w, w', s, t, steepest, LetOut(w, c, w', s), TakenIn(w, c, w', s));
      case Outsiders(tokens) =>
        Transactions.TokensMoved(w, tokens);
        RunFlowsWait(worlds[0], w, w', s, t, steepest);
        PlusNothing(t);
      case Passed(clock) =>
        ClockAdvances(w, clock);
        RunFlowsWait(worlds[0], w, w', s, t, steepest);
        PlusNothing(t);
    }
  }

  lemma PlusNothing(t: Totals)
    ensures t.Plus(NOTHING) == t
  {
  }

  lemma RunFlowsLimit(start: World, w: World, s: Subject, t: Totals, steepest: u64)
    requires RunFlows(start, w, s, t, steepest)
    ensures HasLimit(w, s)
  {
  }

  lemma AnySlope(worlds: seq<World>, s: Subject, n: nat)
    requires n < |worlds|
    ensures NoSteeper(worlds, s, n, U64_MAX)
  {
  }

  /** The outflow bound over every run of the program, for every reserve and every integration: whatever calls
      are made, in whatever order, and however its parameters are changed on the way, what has been let out
      is covered by what there was, what came in, what the cap was raised by, and what accrued at the slope
      in force; and what is left is covered as well. */
  lemma RunOutflowBound(worlds: seq<World>, moves: seq<Move>, s: Subject, n: nat)
    requires IsRun(worlds, moves) && n <= |moves| && ValidWorld(worlds[0]) && HasLimit(worlds[0], s)
    ensures HasLimit(worlds[n], s)
    ensures var b := LimitOf(worlds[0], s); var t := TotalsOf(worlds, moves, s, n);
            && SECONDS_PER_DAY * t.spent + LimitOf(worlds[n], s).Potential()
               <= b.Potential() + SECONDS_PER_DAY * (t.received + t.raised) + t.accrued
  {
    hide ValidWorld, Executes, Run, RunTotals, TotalsOf, Leads;
    AnySlope(worlds, s, n);
    EveryRunFlows(worlds, moves, s, n, U64_MAX);
    var b, b', t := LimitOf(worlds[0], s), LimitOf(worlds[n], s), TotalsOf(worlds, moves, s, n);
    var ops :| SlopesWithin(ops, U64_MAX) && Evolves(b, b', worlds[0].clock.ts, worlds[n].clock.ts, ops, t);
    RunBound(b, ops);
  }

  /** No run within a day lets out more than the cap it starts with, the raises of the cap, one day at the
      steepest slope in force, and what came in. */
  lemma RunDayBound(worlds: seq<World>, moves: seq<Move>, s: Subject, n: nat, steepest: u64)
    requires IsRun(worlds, moves) && n <= |moves| && ValidWorld(worlds[0]) && HasLimit(worlds[0], s)
    requires worlds[n].clock.ts <= worlds[0].clock.ts + SECONDS_PER_DAY && NoSteeper(worlds, s, n, steepest)
    ensures var t := TotalsOf(worlds, moves, s, n);
            t.spent <= LimitOf(worlds[0], s).max + t.raised + steepest + t.received
  {
    hide ValidWorld, Executes, Run, RunTotals, TotalsOf, Leads;
    EveryRunFlows(worlds, moves, s, n, steepest);
    var b, b', t := LimitOf(worlds[0], s), LimitOf(worlds[n], s), TotalsOf(worlds, moves, s, n);
    var ops :| SlopesWithin(ops, steepest) && Evolves(b, b', worlds[0].clock.ts, worlds[n].clock.ts, ops, t);
    assert b.slope <= steepest;
    DayWindowBound(b, ops, worlds[0].clock.ts, steepest);
  }

  // ---------- steady parameters ----------

  /** Slope and cap are the same in every world along the way, whoever sets them to what. */
  ghost predicate Steady(worlds: seq<World>, s: Subject, n: nat)
    requires n < |worlds|
  {
    forall j :: 0 <= j <= n && HasLimit(worlds[j], s) && HasLimit(worlds[0], s) ==>
      && LimitOf(worlds[j], s).slope == LimitOf(worlds[0], s).slope
      && LimitOf(worlds[j], s).max == LimitOf(worlds[0], s).max
  }

  /** At steady parameters no cap is raised, and what accrues is the slope times the time between refreshes. */
  lemma {:induction false} SteadyTotals(worlds: seq<World>, moves: seq<Move>, s: Subject, n: nat)
    requires IsRun(worlds, moves) && n <= |moves| && ValidWorld(worlds[0]) && HasLimit(worlds[0], s)
    requires Steady(worlds, s, n)
    ensures HasLimit(worlds[n], s) && ValidWorld(worlds[n])
    ensures var b := LimitOf(worlds[0], s); var b' := LimitOf(worlds[n], s); var t := TotalsOf(worlds, moves, s, n);
            && b.lastTs <= b'.lastTs
            && t.raised == 0 && t.accrued == b.slope * (b'.lastTs - b.lastTs)
  {
    hide ValidWorld, Leads, MoveTotals, LimitOf;
    if n > 0 {
      SteadyTotals(worlds, moves, s, n - 1);
      var w, w' := worlds[n - 1], worlds[n];
      assert Leads(w, moves[n - 1], w');
      MoveAdvances(w, moves[n - 1], w', s);
      AccrualSplits(LimitOf(worlds[0], s).slope, LimitOf(worlds[0], s).lastTs, LimitOf(w, s).lastTs, LimitOf(w', s).lastTs);
    }
  }

  lemma MoveAdvances(w: World, m: Move, w': World, s: Subject)
    requires Leads(w, m, w') && ValidWorld(w) && HasLimit(w, s)
    ensures ValidWorld(w') && HasLimit(w', s)
    ensures var b := LimitOf(w, s); var b' := LimitOf(w', s); var t := MoveTotals(w, m, w', s);
            b.lastTs <= b'.lastTs && t.raised == CapRaise(b, b') && t.accrued == b.slope * (b'.lastTs - b.lastTs)
  {
    hide ValidWorld, Executes, Effects, LetOut, TakenIn, CallFlows;
    match m
    case Did(c) =>
      ExecutesOk(w, c, w');
      ExecutesFlows(w, c, w', s);
      CallAdvances(LimitOf(w, s), LimitOf(w', s), w.clock.ts, LetOut(w, c, w', s), TakenIn(w, c, w', s));
    case Outsiders(tokens) => Transactions.TokensMoved(w, tokens);
    case Passed(clock) => ClockAdvances(w, clock);
  }

  lemma CallAdvances(b: Bucket, b': Bucket, at: timestamp, spent: nat, received: nat)
    requires CallFlows(b, b', at, spent, received)
    ensures b.lastTs <= b'.lastTs
  {
    var ops :| SlopesWithin(ops, b'.slope)
      && Evolves(b, b', at, at, ops, Totals(spent, received, CapRaise(b, b'), Accrual(b, b')));
    SteeperThanAll(ops);
    AccruedWithin(b, ops, U64_MAX);
  }

  lemma SteeperThanAll(ops: seq<Op>)
    ensures SlopesWithin(ops, U64_MAX)
  {
  }

  /** The bound at steady parameters: linear in the time that has passed. */
  lemma SteadyOutflowBound(worlds: seq<World>, moves: seq<Move>, s: Subject, n: nat)
    requires IsRun(worlds, moves) && n <= |moves| && ValidWorld(worlds[0]) && HasLimit(worlds[0], s)
    requires Steady(worlds, s, n)
    ensures var b := LimitOf(worlds[0], s); var t := TotalsOf(worlds, moves, s, n);
            && b.lastTs <= worlds[n].clock.ts
            && SECONDS_PER_DAY * t.spent
               <= SECONDS_PER_DAY * (b.available + t.received) + b.remainder + b.slope * (worlds[n].clock.ts - b.lastTs)
  {
    hide ValidWorld, Executes, TotalsOf, Leads;
    RunOutflowBound(worlds, moves, s, n);
    SteadyTotals(worlds, moves, s, n);
    LimitValid(worlds[n], s);
    var b, b' := LimitOf(worlds[0], s), LimitOf(worlds[n], s);
    ProductBound(b.slope, b'.lastTs - b.lastTs, b.slope, worlds[n].clock.ts - b.lastTs);
  }

  /** At steady parameters no run within a day lets out more than the cap, the slope and what came in. */
  lemma SteadyDayBound(worlds: seq<World>, moves: seq<Move>, s: Subject, n: nat)
    requires IsRun(worlds, moves) && n <= |moves| && ValidWorld(worlds[0]) && HasLimit(worlds[0], s)
    requires worlds[n].clock.ts <= worlds[0].clock.ts + SECONDS_PER_DAY && Steady(worlds, s, n)
    ensures var b := LimitOf(worlds[0], s); var t := TotalsOf(worlds, moves, s, n);
            t.spent <= b.max + b.slope + t.received
  {
    hide ValidWorld, Executes, TotalsOf, Leads;
    SteadyTotals(worlds, moves, s, n);
    RunDayBound(worlds, moves, s, n, LimitOf(worlds[0], s).slope);
  }
}
