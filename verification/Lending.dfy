/**
 The event log of a lending integration against its stored balance, and the cached balance of a
 reserve against its vault, call by call.
 */
module Lending {
  import opened Words
  import opened Accounts
  import opened Introspection
  import opened Handlers
  import opened Machine
  import opened Bookkeeping
  import opened SwapOutcome
  import opened Replay

  /** Credits minus debits recorded for a lending integration are its balance; nothing is recorded
      for an integration before it exists. */
  ghost predicate LendingAt(w: World, k: Pubkey) {
    && (IsLending(w, k) ==> Net(w.log, OfIntegration(k)) == w.integrations[k].state.balance)
    && (k !in w.integrations ==> Net(w.log, OfIntegration(k)) == 0)
  }

  ghost predicate LendingReplays(w: World) {
    forall k :: LendingAt(w, k)
  }

  lemma BookedLending(w: World, c: Call, w': World)
    requires LendingReplays(w) && Booked(w, w', c)
    ensures LendingReplays(w') <==> Honest(c)
  {
    hide Net, Surplus, Records, Honest;
    var key, events, change, i, moved :| BookedAs(w, w', c, key, events, change, i, moved);
    forall k ensures k != i ==> LendingAt(w', k) {
      assert LendingAt(w, k);
      RecordsAt(events, key, change, i, moved, k);
      NetAppend(w.log, events, OfIntegration(k));
    }
    assert LendingAt(w, i);
    RecordsAt(events, key, change, i, moved, i);
    NetAppend(w.log, events, OfIntegration(i));
    assert LendingAt(w', i) <==> Honest(c);
  }

  /** Events about reserves leave every lending integration's record alone. */
  lemma ReserveEventsOnly(w: World, w': World, events: seq<AccountingEvent>)
    requires LendingReplays(w) && w'.log == w.log + events
    requires forall k :: Net(events, OfIntegration(k)) == 0
    requires forall k :: k in w.integrations <==> k in w'.integrations
    requires forall k :: k in w.integrations ==> SameLending(w.integrations[k].state, w'.integrations[k].state)
    ensures LendingReplays(w')
  {
    hide Net, Surplus;
    forall k ensures LendingAt(w', k) {
      assert LendingAt(w, k);
      NetAppend(w.log, events, OfIntegration(k));
    }
  }

  lemma InitializeReserveLending(w: World, c: Call, w': World)
    requires Ready(w, c) && InitializeReserveStep(w, c, w') && LendingReplays(w)
    ensures LendingReplays(w')
  {
    hide SyncedReserve, SyncEvents, LendingReplays, ValidWorld;
    var a := c.ix.accounts; var args := c.ix.data.args;
    var r := ReserveData(a[1], a[6], a[7], args.reserveStatus,
                         RateLimit.Bucket(args.slope, args.max, args.max, 0, w.clock.ts, w.clock.slot), 0);
    var balance := WithAta(w.tokens, a[7], a[6])[a[7]].amount;
    SyncRecords(a[5], r, balance, PROGRAM_ID);
    ReserveEventsOnly(w, w', SyncEvents(a[5], r, balance));
  }

  lemma BorrowLending(w: World, c: Call, w': World)
    requires Ready(w, c) && BorrowStep(w, c, w') && ValidWorld(w') && LendingReplays(w)
    ensures LendingReplays(w')
  {
    hide BorrowStep, SyncEvents, LendingReplays, Net, Surplus, ReservesValid, IntegrationsValid, VaultsOpen;
    BorrowIsBooked(w, c, w');
    var a := c.ix.accounts;
    IntegrationLimitValid(w, a[4]);
    IntegrationLimitValid(w', a[4]);
    var rA, rB := w.reserves[a[5]], w.reserves[a[8]];
    var first, second := SyncEvents(a[5], rA, w.tokens[a[6]].amount), SyncEvents(a[8], rB, w.tokens[a[9]].amount);
    SyncRecords(a[5], rA, w.tokens[a[6]].amount, PROGRAM_ID);
    SyncRecords(a[8], rB, w.tokens[a[9]].amount, PROGRAM_ID);
    forall k ensures Net(first + second, OfIntegration(k)) == 0 { NetAppend(first, second, OfIntegration(k)); }
    assert w'.log == w.log + (first + second);
    ReserveEventsOnly(w, w', first + second);
  }

  lemma RepayLending(w: World, c: Call, w': World)
    requires Ready(w, c) && RepayStep(w, c, w') && ValidWorld(w') && LendingReplays(w)
    ensures LendingReplays(w')
  {
    hide RepayStep, LendingReplays, Net, Surplus, ReservesValid, IntegrationsValid, VaultsOpen;
    RepayIsBooked(w, c, w');
    var a := c.ix.accounts;
    var returned: u64, gained: u64 :| RepayBooks(w, w', a, returned, gained);
    IntegrationLimitValid(w, a[5]);
    IntegrationLimitValid(w', a[5]);
    var out := AccountingEvent(a[1], OfReserve(a[6]), a[8], Swap, SaturatingSub(w.integrations[a[5]].Borrowed(), returned), Debit);
    var into := AccountingEvent(a[1], OfReserve(a[9]), a[11], Swap, gained, Credit);
    assert [out, into] == [out] + [into];
    forall k ensures Net([out, into], OfIntegration(k)) == 0 {
      NetOne(out, OfIntegration(k));
      NetOne(into, OfIntegration(k));
      NetAppend([out], [into], OfIntegration(k));
    }
    ReserveEventsOnly(w, w', [out, into]);
  }

  /** Lending log replay. A call keeps every lending integration's record equal to its stored balance
      exactly when the lending protocol behaved: a deposit that lowered the position's value, or a
      withdrawal that raised it, is recorded as no change at all. */
  lemma ExecutesLending(w: World, c: Call, w': World)
    requires Ready(w, c) && Executes(w, c, w') && LendingReplays(w)
    ensures LendingReplays(w') <==> Honest(c)
  {
    hide ValidWorld, Effects, Booked, LendingReplays, InitializeReserveStep, BorrowStep, RepayStep;
    ExecutesOk(w, c, w');
    if c.Disc() == 4 {
      DispatchedReserve(w, c, w');
      InitializeReserveLending(w, c, w');
    } else if c.Disc() == 15 {
      BorrowTaken(w, c, w');
      BorrowLending(w, c, w');
    } else if c.Disc() == 16 {
      RepayTaken(w, c, w');
      RepayLending(w, c, w');
    } else {
      ExecutesBooks(w, c, w');
      BookedLending(w, c, w');
    }
  }

  lemma OutsideLending(w: World, w': World)
    requires LendingReplays(w) && w' == w.(tokens := w'.tokens, clock := w'.clock)
    ensures LendingReplays(w')
  {
    hide Net, Surplus;
    forall k ensures LendingAt(w', k) { assert LendingAt(w, k); }
  }
}
