/** Whether a reserve's cached balance agrees with its vault after a call that moves or syncs its tokens. */
module Caches {
  import opened Words
  import opened RateLimit
  import opened Accounts
  import opened Introspection
  import opened Handlers
  import opened Machine
  import opened SwapOutcome

  ghost predicate CacheAgrees(w: World, key: Pubkey) {
    && key in w.reserves && w.reserves[key].vault in w.tokens
    && w.reserves[key].lastBalance == w.tokens[w.reserves[key].vault].amount
  }

  /** The reserve a call moves or syncs. */
  function ReserveOf(c: Call): Pubkey {
    var a := c.ix.accounts;
    var index := if c.Disc() == 8 then 2 else if c.Disc() == 9 then 4 else 5;
    if index < |a| then a[index] else PROGRAM_ID
  }

  /** The CPI behaved towards the vault: a deposit did not raise it, a withdrawal or a harvest in the
      reserve's own mint did not lower it, and a harvest in another mint left it alone. */
  ghost predicate VaultBehaved(w: World, c: Call) {
    var key := ReserveOf(c);
    key in w.reserves && w.reserves[key].vault in w.tokens && w.reserves[key].vault in c.env.tokens ==>
      var before, after := w.tokens[w.reserves[key].vault].amount, c.env.tokens[w.reserves[key].vault].amount;
      if c.Disc() == PUSH_DISC then c.ix.data.args.Kamino? ==> after <= before
      else if c.Disc() == PULL_DISC then after >= before
      else
        var rewards := HarvestedMint(c.ix.accounts, c.env.market);
        c.Disc() == 9 && rewards.Some? ==>
          if rewards.value == w.reserves[key].mint then after >= before else after == before
  }

  lemma SyncsAgree(w: World, c: Call, w': World)
    requires Ready(w, c)
    requires (c.Disc() == 4 && InitializeReserveStep(w, c, w')) || (c.Disc() == 8 && SyncReserveStep(w, c, w'))
    ensures CacheAgrees(w', ReserveOf(c)) && VaultBehaved(w, c)
  {
    hide ReservesValid, IntegrationsValid, VaultsOpen, SyncEvents, Refreshed;
    if c.Disc() == 8 { ReserveLimitValid(w, c.ix.accounts[2]); }
  }

  lemma PaidOutAgrees(w: World, c: Call, tokens: Ledger, amount: u64, state: IntegrationState, action: AccountingAction)
    requires Ready(w, c) && c.Disc() == PUSH_DISC && OuterOk(w, c.ix.accounts) && CanPayOut(w, c.ix.accounts, tokens, amount)
    ensures CacheAgrees(PaidOut(w, c.ix.accounts, tokens, amount, state, action), ReserveOf(c))
  {
    hide ReservesValid, IntegrationsValid, VaultsOpen, SyncEvents, Refreshed, WithOutflow, SyncedReserve;
    ReserveLimitValid(w, c.ix.accounts[5]);
  }

  lemma TransfersAgree(w: World, c: Call, w': World)
    requires Ready(w, c) && c.Disc() == PUSH_DISC && !c.ix.data.args.Kamino?
    requires PushSplTokenExternalStep(w, c, w') || PushLzBridgeStep(w, c, w')
    ensures CacheAgrees(w', ReserveOf(c)) && VaultBehaved(w, c)
  {
    hide CacheAgrees, CanPayOut, PaidOut, SendFollows, CanSend, Sent, ReservesValid, IntegrationsValid, VaultsOpen;
    var a := c.ix.accounts;
    var amount := c.ix.data.args.amount;
    if PushSplTokenExternalStep(w, c, w') {
      PaidOutAgrees(w, c, Sent(w, a[8], a[10], a[7], amount, c.env), amount, w.integrations[a[4]].state, ExternalTransfer);
    } else {
      PaidOutAgrees(w, c, Sent(w, a[8], a[9], a[7], amount, c.env), amount, LzBridgeState(true), BridgeSend);
    }
  }

  lemma PushKaminoAgrees(w: World, c: Call, w': World)
    requires Ready(w, c) && c.Disc() == PUSH_DISC && PushKaminoStep(w, c, w')
    ensures CacheAgrees(w', ReserveOf(c)) <==> VaultBehaved(w, c)
  {
    hide ReservesValid, IntegrationsValid, SyncEvents, LendingSyncEvents, Refreshed, WithOutflow, SyncedReserve,
      Klend.LendingBalance;
    ReserveLimitValid(w, c.ix.accounts[5]);
    IntegrationLimitValid(w, c.ix.accounts[4]);
  }

  lemma PullKaminoAgrees(w: World, c: Call, w': World)
    requires Ready(w, c) && c.Disc() == PULL_DISC && PullKaminoStep(w, c, w')
    ensures CacheAgrees(w', ReserveOf(c)) <==> VaultBehaved(w, c)
  {
    hide ReservesValid, IntegrationsValid, SyncEvents, LendingSyncEvents, Refreshed, WithInflow, SyncedReserve,
      Klend.LendingBalance;
    ReserveLimitValid(w, c.ix.accounts[5]);
    IntegrationLimitValid(w, c.ix.accounts[4]);
  }

  lemma SyncKaminoAgrees(w: World, c: Call, w': World)
    requires Ready(w, c) && c.Disc() == 9 && SyncKaminoStep(w, c, w')
    ensures CacheAgrees(w', ReserveOf(c)) <==> VaultBehaved(w, c)
  {
    hide ReservesValid, IntegrationsValid, SyncEvents, LendingSyncEvents, Refreshed, WithInflow, SyncedReserve,
      Klend.LendingBalance;
    ReserveLimitValid(w, c.ix.accounts[4]);
    IntegrationLimitValid(w, c.ix.accounts[3]);
  }

  /** Cache agreement. A call that moves or syncs a reserve's tokens leaves its cached balance equal to
      its vault exactly when the lending protocol behaved towards the vault. */
  lemma CacheAgreement(w: World, c: Call, w': World)
    requires Ready(w, c) && Executes(w, c, w') && c.Disc() in {4, 8, 9, 10, 11}
    ensures CacheAgrees(w', ReserveOf(c)) <==> VaultBehaved(w, c)
  {
    hide CacheAgrees, VaultBehaved, ReservesValid, IntegrationsValid, VaultsOpen, PushKaminoOk, PushLzBridgeOk, PushSplTokenExternalOk,
      InitializeReserveStep, SyncReserveStep, SyncKaminoStep, PullKaminoStep;
    match c.Disc()
    case 4 => SyncsAgree(w, c, w');
    case 8 => SyncsAgree(w, c, w');
    case 9 => SyncKaminoAgrees(w, c, w');
    case 11 => PullKaminoAgrees(w, c, w');
    case _ =>
      if c.ix.data.args.Kamino? {
        PushKaminoAgrees(w, c, w');
      } else {
        TransfersAgree(w, c, w');
      }
  }

  /** A borrow syncs both reserves and accounts for the loan it pays out. */
  lemma BorrowCachesAgree(w: World, c: Call, w': World)
    requires Ready(w, c) && BorrowStep(w, c, w')
    ensures |c.ix.accounts| >= 15 && CacheAgrees(w', c.ix.accounts[5]) && CacheAgrees(w', c.ix.accounts[8])
  {
    hide ReservesValid, IntegrationsValid, VaultsOpen, SyncEvents, Refreshed, WithOutflow, SyncedReserve;
    var a := c.ix.accounts;
    SwapReservesDiffer(w, a[4], a[5], a[8]);
    ReserveLimitValid(w, a[5]);
    ReserveLimitValid(w, a[8]);
    IntegrationLimitValid(w, a[4]);
    VaultMint(w, a[5]);
    VaultMint(w, a[8]);
  }
}
