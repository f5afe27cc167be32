/** What each successful call writes to the accounting log, and what it does to the cached balances. */
module Bookkeeping {
  import opened Words
  import opened RateLimit
  import opened Accounts
  import opened Introspection
  import opened Handlers
  import opened Machine

  // ---------- what a batch of events records ----------

  /** The events are about reserve `key` and integration `i` alone: they add up to `change` for the
      one and to `moved` for the other. */
  ghost predicate Records(events: seq<AccountingEvent>, key: Pubkey, change: int, i: Pubkey, moved: int) {
    forall k ::
      && Net(events, OfReserve(k)) == (if k == key then change else 0)
      && Net(events, OfIntegration(k)) == (if k == i then moved else 0)
  }

  lemma RecordsAt(events: seq<AccountingEvent>, key: Pubkey, change: int, i: Pubkey, moved: int, k: Pubkey)
    requires Records(events, key, change, i, moved)
    ensures Net(events, OfReserve(k)) == if k == key then change else 0
    ensures Net(events, OfIntegration(k)) == if k == i then moved else 0
  {
  }

  lemma RecordsNothing(key: Pubkey, i: Pubkey)
    ensures Records([], key, 0, i, 0)
  {
  }

  lemma NetOne(e: AccountingEvent, s: Subject)
    ensures Net([e], s) == if e.subject == s then e.Signed() else 0
  {
    assert [e][..0] == [];
    assert Net([], s) == 0;
  }

  lemma ReserveEventRecords(e: AccountingEvent, key: Pubkey, i: Pubkey)
    requires e.subject == OfReserve(key)
    ensures Records([e], key, e.Signed(), i, 0)
  {
    forall s ensures Net([e], s) == if e.subject == s then e.Signed() else 0 { NetOne(e, s); }
  }

  lemma IntegrationEventRecords(e: AccountingEvent, key: Pubkey, i: Pubkey)
    requires e.subject == OfIntegration(i)
    ensures Records([e], key, 0, i, e.Signed())
  {
    forall s ensures Net([e], s) == if e.subject == s then e.Signed() else 0 { NetOne(e, s); }
  }

  lemma RecordsBoth(first: seq<AccountingEvent>, second: seq<AccountingEvent>, key: Pubkey, a: int, b: int,
                    i: Pubkey, m: int, n: int)
    requires Records(first, key, a, i, m) && Records(second, key, b, i, n)
    ensures Records(first + second, key, a + b, i, m + n)
  {
    forall k
      ensures Net(first + second, OfReserve(k)) == if k == key then a + b else 0
      ensures Net(first + second, OfIntegration(k)) == if k == i then m + n else 0
    {
      RecordsAt(first, key, a, i, m, k);
      RecordsAt(second, key, b, i, n, k);
      NetAppend(first, second, OfReserve(k));
      NetAppend(first, second, OfIntegration(k));
    }
  }

  /** One event about the reserve and one about the integration, in either order. */
  lemma DoubleEntry(reserve: AccountingEvent, integration: AccountingEvent, key: Pubkey, i: Pubkey)
    requires reserve.subject == OfReserve(key) && integration.subject == OfIntegration(i)
    ensures Records([reserve, integration], key, reserve.Signed(), i, integration.Signed())
    ensures Records([integration, reserve], key, reserve.Signed(), i, integration.Signed())
  {
    hide Records;
    ReserveEventRecords(reserve, key, i);
    IntegrationEventRecords(integration, key, i);
    assert [reserve, integration] == [reserve] + [integration];
    assert [integration, reserve] == [integration] + [reserve];
    RecordsBoth([reserve], [integration], key, reserve.Signed(), 0, i, 0, integration.Signed());
    RecordsBoth([integration], [reserve], key, 0, reserve.Signed(), i, integration.Signed(), 0);
  }

  lemma SyncRecords(key: Pubkey, r: ReserveData, balance: u64, i: Pubkey)
    ensures Records(SyncEvents(key, r, balance), key, balance - r.lastBalance, i, 0)
  {
    hide Records;
    if balance > r.lastBalance {
      ReserveEventRecords(AccountingEvent(r.controller, OfReserve(key), r.mint, Sync, balance - r.lastBalance, Credit), key, i);
    } else if balance < r.lastBalance {
      ReserveEventRecords(AccountingEvent(r.controller, OfReserve(key), r.mint, Sync, r.lastBalance - balance, Debit), key, i);
    } else {
      RecordsNothing(key, i);
    }
  }

  lemma LendingSyncRecords(controller: Pubkey, i: Pubkey, mint: Pubkey, previous: u64, balance: u64, key: Pubkey)
    ensures Records(LendingSyncEvents(controller, i, mint, previous, balance), key, 0, i, balance - previous)
  {
    hide Records;
    if balance > previous {
      IntegrationEventRecords(AccountingEvent(controller, OfIntegration(i), mint, Sync, balance - previous, Credit), key, i);
    } else if balance < previous {
      IntegrationEventRecords(AccountingEvent(controller, OfIntegration(i), mint, Sync, previous - balance, Debit), key, i);
    } else {
      RecordsNothing(key, i);
    }
  }

  /** The events of a harvest: the integration in and out, the reserve in. */
  lemma HarvestRecords(controller: Pubkey, i: Pubkey, mint: Pubkey, harvested: bool, added: u64, key: Pubkey)
    requires harvested || added == 0
    ensures Records(HarvestEvents(controller, i, key, mint, harvested, added), key, added, i, 0)
  {
    hide Records;
    if !harvested {
      RecordsNothing(key, i);
    } else {
      var earned := AccountingEvent(controller, OfIntegration(i), mint, Sync, added, Credit);
      var out := AccountingEvent(controller, OfIntegration(i), mint, Withdrawal, added, Debit);
      var into := AccountingEvent(controller, OfReserve(key), mint, Withdrawal, added, Credit);
      IntegrationEventRecords(earned, key, i);
      DoubleEntry(into, out, key, i);
      RecordsBoth([earned], [out, into], key, 0, added, i, added, -(added as int));
      assert [earned] + [out, into] == [earned, out, into];
    }
  }

  // ---------- what a call books ----------

  /** A lending integration's balance is what it was. */
  predicate SameLending(s: IntegrationState, s': IntegrationState) {
    s.LendingState? == s'.LendingState? && (s.LendingState? ==> s'.balance == s.balance)
  }

  ghost predicate LendingKept(m: map<Pubkey, IntegrationData>, m': map<Pubkey, IntegrationData>, i: Pubkey) {
    && (forall k :: k in m ==> k in m' && (k != i ==> SameLending(m[k].state, m'[k].state)))
    && (forall k :: k in m' && k !in m && m'[k].state.LendingState? ==> m'[k].state.balance == 0)
  }

  /** Reserve `key` has changed its cached balance by `change`, integration `i` has moved `moved`, and
      `events` say so. No other balance has changed, and no reserve is new. */
  ghost predicate Books(w: World, w': World, key: Pubkey, events: seq<AccountingEvent>, change: int, i: Pubkey,
                        moved: int) {
    && w'.log == w.log + events && w'.repayments == w.repayments && Records(events, key, change, i, moved)
    && (forall k :: k in w'.reserves ==> k in w.reserves)
    && (forall k :: k in w.reserves && k in w'.reserves ==>
          w'.reserves[k].lastBalance == w.reserves[k].lastBalance + if k == key then change else 0)
    && (key !in w.reserves ==> change == 0)
    && (moved != 0 ==> i in w.integrations)
    && LendingKept(w.integrations, w'.integrations, i)
  }

  /** The lending protocol behaved: a deposit did not lower the position's value, nor a withdrawal raise it. */
  predicate Honest(c: Call) {
    var before, after := Klend.LendingBalance(c.env.before), Klend.LendingBalance(c.env.after);
    && (c.Disc() == PUSH_DISC && c.ix.data.args.Kamino? && before.Some? && after.Some? ==> before.value <= after.value)
    && (c.Disc() == PULL_DISC && before.Some? && after.Some? ==> after.value <= before.value)
  }

  predicate IsLending(w: World, i: Pubkey) {
    i in w.integrations && w.integrations[i].state.LendingState?
  }

  /** What is recorded for a lending integration is what its balance moved by, exactly when the protocol behaved. */
  ghost predicate LendingFollows(w: World, w': World, c: Call, i: Pubkey, moved: int) {
    && (IsLending(w, i) ==>
          && IsLending(w', i)
          && (Honest(c) <==> w'.integrations[i].state.balance == w.integrations[i].state.balance + moved))
    && (Honest(c) || IsLending(w, i))
    && (i in w.integrations && IsLending(w', i) ==> IsLending(w, i))
  }

  ghost predicate BookedAs(w: World, w': World, c: Call, key: Pubkey, events: seq<AccountingEvent>, change: int,
                           i: Pubkey, moved: int) {
    Books(w, w', key, events, change, i, moved) && LendingFollows(w, w', c, i, moved)
  }

  ghost predicate Booked(w: World, w': World, c: Call) {
    exists key, events, change, i, moved :: BookedAs(w, w', c, key, events, change, i, moved)
  }

  /** One reserve and one integration rewritten, and the events for just that. */
  lemma OneOfEach(w: World, w': World, key: Pubkey, events: seq<AccountingEvent>, change: int, i: Pubkey, moved: int)
    requires w'.log == w.log + events && w'.repayments == w.repayments && Records(events, key, change, i, moved)
    requires key in w.reserves && key in w'.reserves && w'.reserves == w.reserves[key := w'.reserves[key]]
    requires w'.reserves[key].lastBalance == w.reserves[key].lastBalance + change
    requires i in w.integrations && i in w'.integrations && w'.integrations == w.integrations[i := w'.integrations[i]]
    ensures Books(w, w', key, events, change, i, moved)
  {
    hide Records;
  }

  // ---------- calls that book nothing ----------

  ghost predicate BooksNothing(w: World, w': World) {
    && w'.log == w.log && w'.repayments == w.repayments && w'.reserves.Keys == w.reserves.Keys
    && (forall k :: k in w.reserves ==> w'.reserves[k].lastBalance == w.reserves[k].lastBalance)
    && (forall k :: k in w.integrations ==>
          k in w'.integrations && SameLending(w.integrations[k].state, w'.integrations[k].state))
    && (forall k :: k in w'.integrations && k !in w.integrations && w'.integrations[k].state.LendingState? ==>
          w'.integrations[k].state.balance == 0)
  }

  lemma NothingBooked(w: World, w': World, c: Call)
    requires BooksNothing(w, w') && c.Disc() !in {PUSH_DISC, PULL_DISC}
    ensures Booked(w, w', c)
  {
    RecordsNothing(PROGRAM_ID, PROGRAM_ID);
    assert w.log + [] == w.log;
    forall k | k in w'.reserves ensures k in w.reserves { assert k in w'.reserves.Keys; }
    assert BookedAs(w, w', c, PROGRAM_ID, [], 0, PROGRAM_ID, 0);
  }

  lemma SameBooks(w: World)
    ensures BooksNothing(w, w)
  {
  }

  lemma AdministrationBooks(w: World, c: Call, w': World)
    requires Ready(w, c)
    requires (c.Disc() == 1 && InitializeControllerStep(w, c, w')) || (c.Disc() == 2 && ManageControllerStep(w, c, w'))
             || (c.Disc() == 3 && ManagePermissionStep(w, c, w')) || (c.Disc() == 5 && ManageReserveStep(w, c, w'))
    ensures BooksNothing(w, w')
  {
    hide ValidWorld, UpdatedLimit;
  }

  lemma IntegrationCallsBook(w: World, c: Call, w': World)
    requires Ready(w, c)
    requires (c.Disc() == 6 && InitializeIntegrationStep(w, c, w')) || (c.Disc() == 7 && ManageIntegrationStep(w, c, w'))
             || (c.Disc() == 17 && ResetStep(w, c, w'))
    ensures BooksNothing(w, w')
  {
    hide ValidWorld, UpdatedLimit;
  }

  lemma OracleCallsBook(w: World, c: Call, w': World)
    requires Ready(w, c)
    requires (c.Disc() == 12 && InitializeOracleStep(w, c, w')) || (c.Disc() == 13 && UpdateOracleStep(w, c, w'))
             || (c.Disc() == 14 && RefreshOracleStep(w, c, w'))
    ensures BooksNothing(w, w')
  {
    hide ValidWorld;
  }

  // ---------- calls that move or sync one reserve ----------

  lemma SyncReserveBooks(w: World, c: Call, w': World)
    requires Ready(w, c) && c.Disc() == 8 && SyncReserveStep(w, c, w')
    ensures Booked(w, w', c)
  {
    hide ValidWorld, SyncedReserve, SyncEvents, Records;
    var key := c.ix.accounts[2];
    ReserveLimitValid(w, key);
    var r, balance := w.reserves[key], VaultBalance(w, key);
    SyncRecords(key, r, balance, PROGRAM_ID);
    assert BookedAs(w, w', c, key, SyncEvents(key, r, balance), balance - r.lastBalance, PROGRAM_ID, 0);
  }

  lemma TransferRecords(key: Pubkey, r: ReserveData, balance: u64, i: Pubkey, reserve: AccountingEvent,
                        integration: AccountingEvent)
    requires integration.subject == OfIntegration(i) && reserve.subject == OfReserve(key)
    ensures Records(SyncEvents(key, r, balance) + [reserve, integration],
                    key, balance as int - r.lastBalance + reserve.Signed(), i, integration.Signed())
  {
    hide Records, SyncEvents;
    SyncRecords(key, r, balance, i);
    DoubleEntry(reserve, integration, key, i);
    RecordsBoth(SyncEvents(key, r, balance), [reserve, integration], key, balance as int - r.lastBalance, reserve.Signed(),
                i, 0, integration.Signed());
  }

  lemma PaidOutBooks(w: World, c: Call, tokens: Ledger, amount: u64, state: IntegrationState, action: AccountingAction)
    requires Ready(w, c) && OuterOk(w, c.ix.accounts) && CanPayOut(w, c.ix.accounts, tokens, amount)
    requires !w.integrations[c.ix.accounts[4]].state.LendingState? && !state.LendingState?
    requires c.Disc() == PUSH_DISC && !c.ix.data.args.Kamino?
    ensures Booked(w, PaidOut(w, c.ix.accounts, tokens, amount, state, action), c)
  {
    hide ValidWorld, SyncedReserve, SyncEvents, Records, Books, RateLimit.Refreshed, RateLimit.WithOutflow;
    var a := c.ix.accounts;
    var w' := PaidOut(w, a, tokens, amount, state, action);
    var key, i := a[5], a[4];
    ReserveLimitValid(w, key);
    var r, balance := w.reserves[key], VaultBalance(w, key);
    var out := AccountingEvent(a[0], OfReserve(key), r.mint, action, amount, Debit);
    var into := AccountingEvent(a[0], OfIntegration(i), r.mint, action, amount, Credit);
    var sync := SyncEvents(key, r, balance);
    TransferRecords(key, r, balance, i, out, into);
    assert w'.log == w.log + (sync + [out, into]);
    OneOfEach(w, w', key, sync + [out, into], balance - r.lastBalance - amount, i, amount);
    assert BookedAs(w, w', c, key, sync + [out, into], balance - r.lastBalance - amount, i, amount);
  }

  /** A sync of the reserve, a sync of the lending position, then one event about each. */
  lemma LendingMoveRecords(key: Pubkey, r: ReserveData, balance: u64, i: Pubkey, mint: Pubkey, previous: u64,
                           before: u64,
                           integration: AccountingEvent, reserve: AccountingEvent)
    requires integration.subject == OfIntegration(i) && reserve.subject == OfReserve(key)
    ensures Records(SyncEvents(key, r, balance) + LendingSyncEvents(r.controller, i, mint, previous, before)
                    + [integration, reserve],
                    key, balance as int - r.lastBalance + reserve.Signed(),
                    i, before as int - previous + integration.Signed())
  {
    hide Records, SyncEvents, LendingSyncEvents;
    var sync, lending := SyncEvents(key, r, balance), LendingSyncEvents(r.controller, i, mint, previous, before);
    var change: int, moved: int := balance as int - r.lastBalance, before as int - previous;
    SyncRecords(key, r, balance, i);
    LendingSyncRecords(r.controller, i, mint, previous, before, key);
    DoubleEntry(reserve, integration, key, i);
    RecordsBoth(sync, lending, key, change, 0, i, 0, moved);
    RecordsBoth(sync + lending, [integration, reserve], key, change, reserve.Signed(), i, moved, integration.Signed());
  }

  lemma PushKaminoBooks(w: World, c: Call, w': World)
    requires Ready(w, c) && c.Disc() == 10 && PushKaminoStep(w, c, w')
    ensures Booked(w, w', c)
  {
    hide ReservesValid, IntegrationsValid, VaultsOpen, SyncedReserve, SyncEvents, LendingSyncEvents, Records, Books,
      RateLimit.Refreshed, RateLimit.WithOutflow, TakenByCpi, Klend.LendingBalance;
    var a := c.ix.accounts;
    var key, i := a[5], a[4];
    ReserveLimitValid(w, key);
    IntegrationLimitValid(w, i);
    var r, balance, previous := w.reserves[key], VaultBalance(w, key), w.integrations[i].state.balance;
    var taken := TakenByCpi(w, key, c.env);
    var before, after := Klend.LendingBalance(c.env.before).value, Klend.LendingBalance(c.env.after).value;
    var integration := AccountingEvent(a[0], OfIntegration(i), a[10], Deposit, SaturatingSub(after, before), Credit);
    var reserve := AccountingEvent(a[0], OfReserve(key), a[10], Deposit, taken, Debit);
    var sync, lending := SyncEvents(key, r, balance), LendingSyncEvents(a[0], i, a[10], previous, before);
    LendingMoveRecords(key, r, balance, i, a[10], previous, before, integration, reserve);
    assert w'.log == w.log + (sync + lending + [integration, reserve]);
    OneOfEach(w, w', key, sync + lending + [integration, reserve], balance as int - r.lastBalance - taken,
              i, before as int - previous + SaturatingSub(after, before));
    assert BookedAs(w, w', c, key, sync + lending + [integration, reserve], balance as int - r.lastBalance - taken,
                    i, before as int - previous + SaturatingSub(after, before));
  }

  lemma PullKaminoBooks(w: World, c: Call, w': World)
    requires Ready(w, c) && c.Disc() == 11 && PullKaminoStep(w, c, w')
    ensures Booked(w, w', c)
  {
    hide ReservesValid, IntegrationsValid, VaultsOpen, SyncedReserve, SyncEvents, LendingSyncEvents, Records, Books,
      RateLimit.Refreshed, RateLimit.WithInflow, AddedByCpi, Klend.LendingBalance;
    var a := c.ix.accounts;
    var key, i := a[5], a[4];
    ReserveLimitValid(w, key);
    IntegrationLimitValid(w, i);
    var r, balance, previous := w.reserves[key], VaultBalance(w, key), w.integrations[i].state.balance;
    var added := AddedByCpi(w, key, c.env);
    var before, after := Klend.LendingBalance(c.env.before).value, Klend.LendingBalance(c.env.after).value;
    var integration := AccountingEvent(a[0], OfIntegration(i), a[10], Withdrawal, SaturatingSub(before, after), Debit);
    var reserve := AccountingEvent(a[0], OfReserve(key), a[10], Withdrawal, added, Credit);
    var sync, lending := SyncEvents(key, r, balance), LendingSyncEvents(a[0], i, a[10], previous, before);
    LendingMoveRecords(key, r, balance, i, a[10], previous, before, integration, reserve);
    assert w'.log == w.log + (sync + lending + [integration, reserve]);
    OneOfEach(w, w', key, sync + lending + [integration, reserve], balance as int - r.lastBalance + added,
              i, before as int - previous - SaturatingSub(before, after));
    assert BookedAs(w, w', c, key, sync + lending + [integration, reserve], balance as int - r.lastBalance + added,
                    i, before as int - previous - SaturatingSub(before, after));
  }

  lemma SyncKaminoBooks(w: World, c: Call, w': World)
    requires Ready(w, c) && c.Disc() == 9 && SyncKaminoStep(w, c, w')
    ensures Booked(w, w', c)
  {
    hide ReservesValid, IntegrationsValid, VaultsOpen, SyncedReserve, SyncEvents, LendingSyncEvents, HarvestEvents, Records, Books,
      RateLimit.Refreshed, RateLimit.WithInflow, AddedByCpi, Klend.LendingBalance;
    var a := c.ix.accounts;
    var key, i := a[4], a[3];
    ReserveLimitValid(w, key);
    IntegrationLimitValid(w, i);
    var r, balance, previous := w.reserves[key], VaultBalance(w, key), w.integrations[i].state.balance;
    var after := Klend.LendingBalance(c.env.after).value;
    var rewards := HarvestedMint(a, c.env.market);
    var harvested := rewards.Some? && rewards.value == r.mint;
    var added := if harvested then AddedByCpi(w, key, c.env) else 0;
    var harvest := HarvestEvents(a[0], i, key, r.mint, harvested, added);
    var sync, lending := SyncEvents(key, r, balance), LendingSyncEvents(a[0], i, r.mint, previous, after);
    var change: int := balance as int - r.lastBalance;
    SyncRecords(key, r, balance, i);
    HarvestRecords(a[0], i, r.mint, harvested, added, key);
    LendingSyncRecords(a[0], i, r.mint, previous, after, key);
    RecordsBoth(sync, harvest, key, change, added, i, 0, 0);
    RecordsBoth(sync + harvest, lending, key, change + added, 0, i, 0, after as int - previous);
    assert w'.log == w.log + (sync + harvest + lending);
    OneOfEach(w, w', key, sync + harvest + lending, change + added, i, after as int - previous);
    assert BookedAs(w, w', c, key, sync + harvest + lending, change + added, i, after as int - previous);
  }

  lemma PushBooks(w: World, c: Call, w': World)
    requires Ready(w, c) && c.Disc() == 10
    requires PushSplTokenExternalStep(w, c, w') || PushLzBridgeStep(w, c, w') || PushKaminoStep(w, c, w')
    ensures Booked(w, w', c)
  {
    hide PushKaminoStep, Booked, CanPayOut, PaidOut, SendFollows, CanSend, Sent, ReservesValid, IntegrationsValid,
      VaultsOpen;
    var a := c.ix.accounts;
    if PushKaminoStep(w, c, w') {
      PushKaminoBooks(w, c, w');
    } else if PushSplTokenExternalStep(w, c, w') {
      IntegrationLimitValid(w, a[4]);
      var amount := c.ix.data.args.amount;
      PaidOutBooks(w, c, Sent(w, a[8], a[10], a[7], amount, c.env), amount, w.integrations[a[4]].state, ExternalTransfer);
    } else {
      IntegrationLimitValid(w, a[4]);
      var amount := c.ix.data.args.amount;
      PaidOutBooks(w, c, Sent(w, a[8], a[9], a[7], amount, c.env), amount, LzBridgeState(true), BridgeSend);
    }
  }

  /** Apart from the creation of reserves and from swaps, a call books one reserve's change or nothing. */
  lemma ExecutesBooks(w: World, c: Call, w': World)
    requires Ready(w, c) && Executes(w, c, w') && c.Disc() !in {4, 15, 16}
    ensures Booked(w, w', c)
  {
    hide Booked, BooksNothing, ValidWorld, InitializeControllerStep, ManageControllerStep, ManagePermissionStep,
      InitializeReserveStep, ManageReserveStep, InitializeIntegrationStep, ManageIntegrationStep, SyncReserveStep,
      SyncKaminoStep, PushSplTokenExternalStep, PushLzBridgeStep, PushKaminoStep, PullKaminoStep, InitializeOracleStep,
      UpdateOracleStep, RefreshOracleStep, BorrowStep, RepayStep, ResetStep;
    match c.ix.data.disc
    case 1 => AdministrationBooks(w, c, w'); NothingBooked(w, w', c);
    case 2 => AdministrationBooks(w, c, w'); NothingBooked(w, w', c);
    case 3 => AdministrationBooks(w, c, w'); NothingBooked(w, w', c);
    case 5 => AdministrationBooks(w, c, w'); NothingBooked(w, w', c);
    case 6 => IntegrationCallsBook(w, c, w'); NothingBooked(w, w', c);
    case 7 => IntegrationCallsBook(w, c, w'); NothingBooked(w, w', c);
    case 17 => IntegrationCallsBook(w, c, w'); NothingBooked(w, w', c);
    case 12 => OracleCallsBook(w, c, w'); NothingBooked(w, w', c);
    case 13 => OracleCallsBook(w, c, w'); NothingBooked(w, w', c);
    case 14 => OracleCallsBook(w, c, w'); NothingBooked(w, w', c);
    case 8 => SyncReserveBooks(w, c, w');
    case 9 => SyncKaminoBooks(w, c, w');
    case 10 => PushBooks(w, c, w');
    case 11 => PullKaminoBooks(w, c, w');
    case _ => SameBooks(w); NothingBooked(w, w', c);
  }
}
