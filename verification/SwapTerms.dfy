/** The terms of every committed swap: at what price, for which pair, and what is left with the payer. */
module SwapTerms {
  import opened Words
  import opened RateLimit
  import opened Accounts
  import opened Introspection
  import opened Handlers
  import opened Machine
  import opened Transactions
  import opened Swap
  import opened SwapOutcome
  import opened Movements
  import opened Administration

  // ---------- the price ----------

  /** The price of every committed swap is read in its last step from the integration's own oracle, which is the
      controller's and was updated no more slots ago than the configuration allows. */
  lemma SwapPriceFresh(t: Transaction, b: nat)
    requires t.Committed() && ValidWorld(t.worlds[0]) && Quiet(t.worlds[0]) && t.BorrowsAt(b)
    ensures var a := BorrowAccounts(t, b); var wn := t.worlds[|t.steps| - 1];
            && |a| >= 15 && a[4] in t.worlds[b].integrations
            && var config := t.worlds[b].integrations[a[4]].config;
            && config.AtomicSwapConfig? && config.oracle in wn.oracles
            && wn.oracles[config.oracle].controller == a[0]
            && wn.oracles[config.oracle].lastUpdateSlot + config.maxStaleness >= wn.clock.slot
  {
    hide ValidWorld, Transaction.Scheduled, Transaction.Takes, Quiet, FairExchange;
    SwapValue(t, b);
  }

  // ---------- the payer ----------

  /** The payer's two accounts: no more of token A than before the borrow, and just as much of token B. */
  ghost predicate PayerKeepsNothing(w: World, w': World, a: seq<Pubkey>)
    requires |a| >= 15
  {
    && a[10] in w.tokens && a[11] in w.tokens && a[10] in w'.tokens && a[11] in w'.tokens
    && w'.tokens[a[10]].amount <= w.tokens[a[10]].amount
    && w'.tokens[a[11]].amount == w.tokens[a[11]].amount
  }

  /** The recipient of the loan is not the other vault, whose mint is another. */
  lemma RecipientIsNoVault(w: World, c: Call, w': World)
    requires Ready(w, c) && Executes(w, c, w') && c.ix.data.disc == 15
    ensures var a := c.ix.accounts;
            && |a| >= 15 && a[4] in w'.integrations && a[10] in w.tokens && a[11] in w.tokens && a[10] != a[9]
            && var state := w'.integrations[a[4]].state;
            && state.AtomicSwapState? && state.recipientTokenAPre == w.tokens[a[10]].amount
            && state.recipientTokenBPre == w.tokens[a[11]].amount
  {
    hide ReservesValid, IntegrationsValid, VaultsOpen, Executes, Level, LevelAfterSync, Balancing, ValidLimit;
    BorrowMoves(w, c, w');
    var a := c.ix.accounts;
    VaultMint(w, a[8]);
    SwapReservesDiffer(w, a[4], a[5], a[8]);
  }

  lemma RepayLeavesPayer(w: World, c: Call, w': World, a: seq<Pubkey>)
    requires Ready(w, c) && Executes(w, c, w') && c.ix.data.disc == 16
    requires |a| >= 15 && PaysBack(c.ix, a)
    requires |c.ix.accounts| >= 17 ==> c.ix.accounts[7] == a[6] && c.ix.accounts[10] == a[9] && a[10] != a[9]
    ensures |c.ix.accounts| >= 17 && c.ix.accounts[5] in w.integrations
    ensures w.integrations[c.ix.accounts[5]].state.AtomicSwapState?
    ensures var state := w.integrations[c.ix.accounts[5]].state;
            && a[10] in w'.tokens && a[11] in w'.tokens
            && w'.tokens[a[11]].amount == state.recipientTokenBPre
            && (a[10] != a[11] ==> w'.tokens[a[10]].amount <= state.recipientTokenAPre)
  {
    hide ValidWorld, Executes, Repayable;
    RepayMoves(w, c, w');
  }

  /** The payer of every committed swap ends with no more of the token lent than it had before the borrow, and
      with just as much of the other: the refund and the proceeds are all it came by. */
  lemma SwapLeavesPayer(t: Transaction, b: nat)
    requires t.Committed() && ValidWorld(t.worlds[0]) && Quiet(t.worlds[0]) && t.BorrowsAt(b)
    ensures |BorrowAccounts(t, b)| >= 15
    ensures PayerKeepsNothing(t.worlds[b], t.worlds[|t.steps|], BorrowAccounts(t, b))
  {
    hide ValidWorld, Executes, Transaction.Scheduled, Transaction.Takes, Quiet, Held;
    SwapAt(t, b);
    var last := |t.steps| - 1;
    var a := BorrowAccounts(t, b);
    assert t.Takes(b) && t.Takes(last);
    TakesExecutes(t, b);
    TakesExecutes(t, last);
    RecipientIsNoVault(t.worlds[b], t.CallAt(b), t.worlds[b + 1]);
    SameVaults(t, b);
    RepayLeavesPayer(t.worlds[last], t.CallAt(last), t.worlds[last + 1], a);
    SameLoan(t, b);
  }

  lemma TakesExecutes(t: Transaction, s: nat)
    requires |t.worlds| == |t.steps| + 1 && s < |t.steps| && t.Calls(s) && t.Takes(s)
    ensures Ready(t.worlds[s], t.CallAt(s)) && Executes(t.worlds[s], t.CallAt(s), t.worlds[s + 1])
  {
    hide ValidWorld, Executes;
  }

  /** The repay pays the vaults the borrow lent from and for. */
  lemma SameVaults(t: Transaction, b: nat)
    requires t.Committed() && ValidWorld(t.worlds[0]) && Quiet(t.worlds[0]) && t.BorrowsAt(b)
    ensures b < |t.steps| - 1 && t.RepaysAt(|t.steps| - 1)
    ensures var a := BorrowAccounts(t, b); var r := t.CallAt(|t.steps| - 1).ix.accounts;
            |a| >= 15 && |r| >= 17 && r[7] == a[6] && r[10] == a[9]
  {
    hide ValidWorld, Transaction.Scheduled, Transaction.Takes, Quiet, Held, Completed, Lent, Settled;
    SwapAt(t, b);
    var last := |t.steps| - 1;
    WorldsStayValid(t, b + 1);
    WorldsStayValid(t, last);
    BorrowLeg(t, b);
    RepayLeg(t, last);
    var returned: u64, gained: u64 :| SettledAt(t, last, returned, gained);
    LegsJoin(t.worlds[b], t.worlds[b + 1], t.worlds[last], t.worlds[last + 1], BorrowAccounts(t, b),
             t.CallAt(last).ix.accounts, t.CallAt(b).ix.data.args.amount, returned, gained);
  }

  /** The repay finds the state of the integration that the borrow left. */
  lemma SameLoan(t: Transaction, b: nat)
    requires t.Committed() && ValidWorld(t.worlds[0]) && Quiet(t.worlds[0]) && t.BorrowsAt(b)
    ensures var i := IntegrationOf(t.CallAt(b)); var last := |t.steps| - 1;
            && b < last && i in t.worlds[b + 1].integrations && i in t.worlds[last].integrations
            && t.worlds[last].integrations[i] == t.worlds[b + 1].integrations[i]
  {
    hide ValidWorld, Transaction.Scheduled, Transaction.Takes, Quiet;
    SwapAt(t, b);
    BorrowLeg(t, b);
  }

  // ---------- the pair ----------

  /** Every swap integration has an oracle of its own controller that quotes its pair, the right way round. */
  ghost predicate AllQuoted(w: World) {
    forall k :: k in w.integrations && w.integrations[k].config.AtomicSwapConfig? ==>
      QuotedIn(w.oracles, w.integrations[k])
  }

  predicate QuotedIn(oracles: map<Pubkey, OracleData>, i: IntegrationData)
    requires i.config.AtomicSwapConfig?
  {
    && i.config.inputToken != i.config.outputToken && i.config.oracle in oracles
    && QuotesPair(oracles[i.config.oracle], i.controller, i.config)
  }

  /** No call changes what an oracle quotes or whose it is. */
  ghost predicate QuotesKept(oracles: map<Pubkey, OracleData>, oracles': map<Pubkey, OracleData>) {
    forall k :: k in oracles ==>
      && k in oracles' && oracles'[k].controller == oracles[k].controller
      && oracles'[k].baseMint == oracles[k].baseMint && oracles'[k].quoteMint == oracles[k].quoteMint
  }

  lemma AdministrationKeepsQuotes(w: World, c: Call, w': World)
    requires c.ix.data.Command? && c.ix.data.disc in {12, 13, 14} && Administered(w, c, w')
    ensures QuotesKept(w.oracles, w'.oracles)
  {
  }

  lemma ExecutesKeepsQuotes(w: World, c: Call, w': World)
    requires Ready(w, c) && Executes(w, c, w')
    ensures QuotesKept(w.oracles, w'.oracles)
  {
    hide ValidWorld, Executes, Effects, Administered;
    ExecutesOk(w, c, w');
    EffectsUntouched(w, w', c);
    EveryCallAdministered(w, c, w');
    if c.ix.data.disc in {12, 13, 14} { AdministrationKeepsQuotes(w, c, w'); }
  }

  lemma AdministrationAdds(w: World, c: Call, w': World, k: Pubkey)
    requires c.ix.data.Command? && c.ix.data.disc in {6, 7, 17} && Administered(w, c, w')
    requires k in w'.integrations && k !in w.integrations
    ensures c.ix.data.disc == 6 && c.ix.data.args.InitializeIntegration? && |c.ix.accounts| >= 8
    ensures IntegrationInitialized(w, c.ix.accounts, c.ix.data.args, w') && k == c.ix.accounts[5]
  {
  }

  /** Only an initialization adds an integration. */
  lemma OnlyInitializationAdds(w: World, c: Call, w': World, k: Pubkey)
    requires Ready(w, c) && Executes(w, c, w') && k in w'.integrations && k !in w.integrations
    ensures c.ix.data.disc == 6 && c.ix.data.args.InitializeIntegration? && |c.ix.accounts| >= 8
    ensures IntegrationInitialized(w, c.ix.accounts, c.ix.data.args, w') && k == c.ix.accounts[5]
  {
    hide ValidWorld, Executes, Effects, Administered, IntegrationInitialized;
    ExecutesOk(w, c, w');
    ExecutesGated(w, c, w');
    EffectsUntouched(w, w', c);
    if c.ix.data.disc in {6, 7, 17} {
      EveryCallAdministered(w, c, w');
      AdministrationAdds(w, c, w', k);
    } else {
      MovementAddsNothing(w, c, w');
    }
  }

  lemma MovementAddsNothing(w: World, c: Call, w': World)
    requires Ready(w, c) && Executes(w, c, w') && Untouched(w, w', c) && c.Disc() <= 18 && c.Disc() !in {6, 7, 17}
    ensures forall k :: k in w'.integrations ==> k in w.integrations
  {
    hide ValidWorld, Executes, Balancing, Repayable, SettledUp, OwnMarket, Paid;
    match c.ix.data.disc
    case 9 => LendingSyncMoves(w, c, w');
    case 10 => PushAddsNothing(w, c, w');
    case 11 => WithdrawalMoves(w, c, w');
    case 15 => BorrowMoves(w, c, w');
    case 16 => RepayMoves(w, c, w');
    case _ =>
  }

  lemma PushAddsNothing(w: World, c: Call, w': World)
    requires Ready(w, c) && Executes(w, c, w') && c.ix.data.disc == 10
    ensures forall k :: k in w'.integrations ==> k in w.integrations
  {
    hide ValidWorld, Balancing, Paid, PushSplTokenExternalOk, PushLzBridgeOk, PushKaminoOk;
    if c.ix.data.args.SplTokenExternal? { ExternalTransferMoves(w, c, w'); }
    else if c.ix.data.args.LzBridge? { BridgePushMoves(w, c, w'); }
    else { DepositMoves(w, c, w'); }
  }

  lemma ExecutesQuoted(w: World, c: Call, w': World)
    requires Ready(w, c) && Executes(w, c, w') && AllQuoted(w)
    ensures AllQuoted(w')
  {
    hide ValidWorld, Executes, Untouched, ControllersEffect, ReservesEffect, IntegrationEffect;
    ExecutesOk(w, c, w');
    ExecutesKeepsQuotes(w, c, w');
    forall k | k in w'.integrations && w'.integrations[k].config.AtomicSwapConfig?
      ensures QuotedIn(w'.oracles, w'.integrations[k])
    {
      if k in w.integrations {
        ConfigurationKept(w, c, w', k);
      } else {
        OnlyInitializationAdds(w, c, w', k);
      }
    }
  }

  lemma ConfigurationKept(w: World, c: Call, w': World, k: Pubkey)
    requires Effects(w, w', c) && k in w.integrations && k in w'.integrations
    ensures w'.integrations[k].config == w.integrations[k].config
    ensures w'.integrations[k].controller == w.integrations[k].controller
  {
  }
}
