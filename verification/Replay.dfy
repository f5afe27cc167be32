/**
 The event log against the cached balances. Replaying a reserve's accounting events gives the balance
 the reserve has cached plus what is lent out of it at the moment, less whatever repayments brought
 back above their loans: the program records no event for that surplus.
 */
module Replay {
  import opened Words
  import opened RateLimit
  import opened Accounts
  import opened Introspection
  import opened Handlers
  import opened Machine
  import opened Bookkeeping
  import opened SwapOutcome

  // ---------- what is lent out of a reserve ----------

  ghost function Draws(i: IntegrationData, r: ReserveData): nat {
    if i.config.AtomicSwapConfig? && i.controller == r.controller && i.config.inputToken == r.mint then i.Borrowed() else 0
  }

  ghost function Outstanding(m: map<Pubkey, IntegrationData>, r: ReserveData): nat
    decreases |m|
  {
    if m == map[] then 0 else
      var k :| k in m;
      Draws(m[k], r) + Outstanding(m - {k}, r)
  }

  /** The sum does not depend on the order in which it is taken. */
  lemma {:induction false} OutstandingSplit(m: map<Pubkey, IntegrationData>, i: Pubkey, r: ReserveData)
    requires i in m
    ensures Outstanding(m, r) == Draws(m[i], r) + Outstanding(m - {i}, r)
    decreases |m|
  {
    var k :| k in m && Outstanding(m, r) == Draws(m[k], r) + Outstanding(m - {k}, r);
    if k != i {
      OutstandingSplit(m - {k}, i, r);
      OutstandingSplit(m - {i}, k, r);
      assert m - {k} - {i} == m - {i} - {k};
    }
  }

  lemma OutstandingUpdated(m: map<Pubkey, IntegrationData>, i: Pubkey, i': IntegrationData, r: ReserveData)
    requires i in m
    ensures Outstanding(m[i := i'], r) == Outstanding(m, r) - Draws(m[i], r) + Draws(i', r)
  {
    OutstandingSplit(m, i, r);
    OutstandingSplit(m[i := i'], i, r);
    assert m[i := i'] - {i} == m - {i};
  }

  /** Integrations may be added with nothing borrowed; otherwise the loans are the same. */
  lemma {:induction false} OutstandingSame(m: map<Pubkey, IntegrationData>, m': map<Pubkey, IntegrationData>,
                                           r: ReserveData)
    requires forall k :: k in m ==> k in m' && Draws(m'[k], r) == Draws(m[k], r)
    requires forall k :: k in m' && k !in m ==> Draws(m'[k], r) == 0
    ensures Outstanding(m', r) == Outstanding(m, r)
    decreases |m'|
  {
    if m' != map[] {
      var k :| k in m';
      OutstandingSplit(m', k, r);
      if k in m {
        OutstandingSplit(m, k, r);
        OutstandingSame(m - {k}, m' - {k}, r);
      } else {
        OutstandingSame(m, m' - {k}, r);
      }
    } else {
      assert m == map[];
    }
  }

  lemma {:induction false} NothingOutstanding(m: map<Pubkey, IntegrationData>, r: ReserveData)
    requires forall k :: k in m ==> Draws(m[k], r) == 0
    ensures Outstanding(m, r) == 0
    decreases |m|
  {
    if m != map[] {
      var k :| k in m;
      OutstandingSplit(m, k, r);
      NothingOutstanding(m - {k}, r);
    }
  }

  // ---------- the invariant ----------

  /** The cached balance and the loans out of it. */
  ghost function Level(w: World, k: Pubkey): nat {
    if k in w.reserves then w.reserves[k].lastBalance + Outstanding(w.integrations, w.reserves[k]) else 0
  }

  ghost predicate ReplaysAt(w: World, k: Pubkey) {
    Net(w.log, OfReserve(k)) + Surplus(w.repayments, k) == Level(w, k)
  }

  /** A loan was taken from a reserve there is. */
  ghost predicate BackedAt(w: World, i: Pubkey)
    requires i in w.integrations
  {
    var d := w.integrations[i];
    d.config.AtomicSwapConfig? && d.Borrowed() > 0 ==> HasReserve(w.reserves, d.controller, d.config.inputToken)
  }

  ghost predicate HasReserve(m: map<Pubkey, ReserveData>, controller: Pubkey, mint: Pubkey) {
    exists k :: k in m && m[k].controller == controller && m[k].mint == mint
  }

  ghost predicate Replays(w: World) {
    && (forall k :: ReplaysAt(w, k))
    && (forall i :: i in w.integrations ==> BackedAt(w, i))
  }

  // ---------- steps that lend and repay nothing ----------

  lemma LoansSame(w: World, c: Call, w': World, k: Pubkey)
    requires Effects(w, w', c) && !c.IsBorrow() && !c.IsRepay() && k in w.reserves
    ensures k in w'.reserves && Outstanding(w'.integrations, w'.reserves[k]) == Outstanding(w.integrations, w.reserves[k])
  {
    var r, r' := w.reserves[k], w'.reserves[k];
    assert ReserveEffect(c, r, r');
    forall i | i in w.integrations ensures i in w'.integrations && Draws(w'.integrations[i], r') == Draws(w.integrations[i], r') {
      assert IntegrationEffect(c, i, w.integrations[i], w'.integrations[i]);
    }
    OutstandingSame(w.integrations, w'.integrations, r');
    DrawsSame(w.integrations, r, r');
  }

  lemma {:induction false} DrawsSame(m: map<Pubkey, IntegrationData>, r: ReserveData, r': ReserveData)
    requires r.controller == r'.controller && r.mint == r'.mint
    ensures Outstanding(m, r) == Outstanding(m, r')
    decreases |m|
  {
    if m != map[] {
      var k :| k in m;
      OutstandingSplit(m, k, r);
      OutstandingSplit(m, k, r');
      DrawsSame(m - {k}, r, r');
    }
  }

  lemma StillBacked(w: World, c: Call, w': World)
    requires Effects(w, w', c) && !c.IsBorrow() && Replays(w)
    ensures forall i :: i in w'.integrations ==> BackedAt(w', i)
  {
    hide Net, Surplus, Level;
    forall i | i in w'.integrations ensures BackedAt(w', i) {
      if i in w.integrations {
        assert BackedAt(w, i) && IntegrationEffect(c, i, w.integrations[i], w'.integrations[i]);
        var d := w.integrations[i];
        if d.config.AtomicSwapConfig? && d.Borrowed() > 0 {
          StillThere(w, c, w', d.controller, d.config.inputToken);
        }
      }
    }
  }

  lemma StillThere(w: World, c: Call, w': World, controller: Pubkey, mint: Pubkey)
    requires Effects(w, w', c) && HasReserve(w.reserves, controller, mint)
    ensures HasReserve(w'.reserves, controller, mint)
  {
    var k :| k in w.reserves && w.reserves[k].controller == controller && w.reserves[k].mint == mint;
    assert ReserveEffect(c, w.reserves[k], w'.reserves[k]);
  }

  lemma BookedReplays(w: World, c: Call, w': World)
    requires Effects(w, w', c) && !c.IsBorrow() && !c.IsRepay() && Replays(w) && Booked(w, w', c)
    ensures Replays(w')
  {
    hide Effects, Net, Surplus, Outstanding, Records, LendingKept, LendingFollows;
    var key, events, change, i, moved :| BookedAs(w, w', c, key, events, change, i, moved);
    StillBacked(w, c, w');
    forall k ensures ReplaysAt(w', k) {
      assert ReplaysAt(w, k);
      RecordsAt(events, key, change, i, moved, k);
      NetAppend(w.log, events, OfReserve(k));
      if k in w.reserves {
        LoansSame(w, c, w', k);
      }
    }
  }

  lemma InitializeReserveReplays(w: World, c: Call, w': World)
    requires Ready(w, c) && c.Disc() == 4 && InitializeReserveStep(w, c, w') && Effects(w, w', c) && Replays(w)
    ensures Replays(w')
  {
    hide Effects, SyncedReserve, SyncEvents, Outstanding, Net, Surplus, ReservesValid, VaultsOpen, Records;
    var a := c.ix.accounts; var args := c.ix.data.args;
    var limit := Bucket(args.slope, args.max, args.max, 0, w.clock.ts, w.clock.slot);
    var tokens := WithAta(w.tokens, a[7], a[6]);
    var r := ReserveData(a[1], a[6], a[7], args.reserveStatus, limit, 0);
    var key, balance := a[5], tokens[a[7]].amount;
    SyncRecords(key, r, balance, PROGRAM_ID);
    assert w'.log == w.log + SyncEvents(key, r, balance) && w'.reserves[key].lastBalance == balance;
    StillBacked(w, c, w');
    forall k ensures ReplaysAt(w', k) {
      assert ReplaysAt(w, k);
      assert Net(SyncEvents(key, r, balance), OfReserve(k)) == if k == key then balance else 0 by {
        RecordsAt(SyncEvents(key, r, balance), key, balance, PROGRAM_ID, 0, k);
      }
      NetAppend(w.log, SyncEvents(key, r, balance), OfReserve(k));
      if k == key {
        NoLoanYet(w, w'.reserves[key]);
      }
    }
  }

  /** Nothing is lent out of a reserve that is only being created. */
  lemma NoLoanYet(w: World, r: ReserveData)
    requires Replays(w)
    requires forall k :: k in w.reserves ==> !(w.reserves[k].controller == r.controller && w.reserves[k].mint == r.mint)
    ensures Outstanding(w.integrations, r) == 0
  {
    hide Outstanding, Net, Surplus;
    forall i | i in w.integrations ensures Draws(w.integrations[i], r) == 0 {
      assert BackedAt(w, i);
    }
    NothingOutstanding(w.integrations, r);
  }

  // ---------- borrow and repay ----------

  lemma LoansUpdated(m: map<Pubkey, IntegrationData>, i: Pubkey, i': IntegrationData, r: ReserveData, r': ReserveData)
    requires i in m && r'.controller == r.controller && r'.mint == r.mint
    ensures Outstanding(m[i := i'], r') == Outstanding(m, r) - Draws(m[i], r) + Draws(i', r)
  {
    OutstandingUpdated(m, i, i', r');
    DrawsSame(m, r, r');
  }

  /** The parts of a borrow that the books see. */
  ghost predicate BorrowBooks(w: World, w': World, a: seq<Pubkey>, amount: u64)
    requires |a| >= 15
  {
    && a[5] in w.reserves && a[8] in w.reserves && a[5] != a[8] && a[4] in w.integrations
    && a[5] in w'.reserves && a[8] in w'.reserves && a[4] in w'.integrations
    && a[6] in w.tokens && a[9] in w.tokens && amount <= w.tokens[a[6]].amount
    && var i := w.integrations[a[4]]; var i' := w'.integrations[a[4]];
    && var rA := w.reserves[a[5]]; var rB := w.reserves[a[8]];
    && i.config.AtomicSwapConfig? && i.controller == rA.controller && i.config.inputToken == rA.mint
    && i'.config == i.config && i'.controller == i.controller && i.Borrowed() == 0 && i'.Borrowed() == amount
    && w'.integrations == w.integrations[a[4] := i']
    && w'.reserves == w.reserves[a[5] := w'.reserves[a[5]]][a[8] := w'.reserves[a[8]]]
    && w'.reserves[a[5]].lastBalance == w.tokens[a[6]].amount - amount
    && w'.reserves[a[8]].lastBalance == w.tokens[a[9]].amount
    && w'.log == w.log + SyncEvents(a[5], rA, w.tokens[a[6]].amount) + SyncEvents(a[8], rB, w.tokens[a[9]].amount)
    && w'.repayments == w.repayments
  }

  lemma BorrowIsBooked(w: World, c: Call, w': World)
    requires Ready(w, c) && BorrowStep(w, c, w')
    ensures c.ix.data.args.Borrow? && |c.ix.accounts| >= 15
    ensures BorrowBooks(w, w', c.ix.accounts, c.ix.data.args.amount)
  {
    hide RateLimit.Refreshed, RateLimit.WithOutflow, SyncedReserve, SyncEvents, ReservesValid, IntegrationsValid,
      VaultsOpen, RepayFollows, Transferred, Net, Surplus;
    var a := c.ix.accounts;
    SwapReservesDiffer(w, a[4], a[5], a[8]);
    ReserveLimitValid(w, a[5]);
    ReserveLimitValid(w, a[8]);
    IntegrationLimitValid(w, a[4]);
  }

  lemma BorrowReplaysAt(w: World, c: Call, w': World, a: seq<Pubkey>, amount: u64, k: Pubkey)
    requires ValidWorld(w) && |a| >= 15 && BorrowBooks(w, w', a, amount) && Effects(w, w', c) && ReplaysAt(w, k)
    ensures ReplaysAt(w', k)
  {
    hide Effects, SyncEvents, Outstanding, Net, Surplus, IntegrationsValid, VaultsOpen, ValidLimit, Records;
    var rA, rB := w.reserves[a[5]], w.reserves[a[8]];
    var first, second := SyncEvents(a[5], rA, w.tokens[a[6]].amount), SyncEvents(a[8], rB, w.tokens[a[9]].amount);
    SyncRecords(a[5], rA, w.tokens[a[6]].amount, PROGRAM_ID);
    SyncRecords(a[8], rB, w.tokens[a[9]].amount, PROGRAM_ID);
    RecordsAt(first, a[5], w.tokens[a[6]].amount - rA.lastBalance, PROGRAM_ID, 0, k);
    RecordsAt(second, a[8], w.tokens[a[9]].amount - rB.lastBalance, PROGRAM_ID, 0, k);
    NetAppend(w.log + first, second, OfReserve(k));
    NetAppend(w.log, first, OfReserve(k));
    if k in w.reserves {
      assert k in w'.reserves && ReserveEffect(c, w.reserves[k], w'.reserves[k]) by { ReservesKept(c, w, w', k); }
      LoansUpdated(w.integrations, a[4], w'.integrations[a[4]], w.reserves[k], w'.reserves[k]);
    }
  }

  lemma ReservesKept(c: Call, w: World, w': World, k: Pubkey)
    requires Effects(w, w', c) && k in w.reserves
    ensures k in w'.reserves && ReserveEffect(c, w.reserves[k], w'.reserves[k])
  {
  }

  lemma BorrowReplays(w: World, c: Call, w': World)
    requires Ready(w, c) && c.Disc() == 15 && BorrowStep(w, c, w') && Effects(w, w', c) && Replays(w)
    ensures Replays(w')
  {
    hide BorrowStep, Effects, Net, Surplus, Level, ReplaysAt, IntegrationsValid, VaultsOpen;
    var a := c.ix.accounts;
    BorrowIsBooked(w, c, w');
    forall k ensures ReplaysAt(w', k) { BorrowReplaysAt(w, c, w', a, c.ix.data.args.amount, k); }
    forall i | i in w'.integrations ensures BackedAt(w', i) {
      if i == a[4] {
        assert HasReserve(w.reserves, w.reserves[a[5]].controller, w.reserves[a[5]].mint);
        StillThere(w, c, w', w.reserves[a[5]].controller, w.reserves[a[5]].mint);
      } else {
        assert BackedAt(w, i);
        var d := w.integrations[i];
        if d.config.AtomicSwapConfig? && d.Borrowed() > 0 {
          StillThere(w, c, w', d.controller, d.config.inputToken);
        }
      }
    }
  }

  /** The parts of a repay that the books see. */
  ghost predicate RepayBooks(w: World, w': World, a: seq<Pubkey>, returned: u64, gained: u64)
    requires |a| >= 17
  {
    && a[6] in w.reserves && a[9] in w.reserves && a[6] != a[9] && a[5] in w.integrations
    && a[6] in w'.reserves && a[9] in w'.reserves && a[5] in w'.integrations
    && var i := w.integrations[a[5]]; var i' := w'.integrations[a[5]];
    && var rA := w.reserves[a[6]]; var rB := w.reserves[a[9]];
    && i.config.AtomicSwapConfig? && i.controller == rA.controller && i.config.inputToken == rA.mint
    && i'.config == i.config && i'.controller == i.controller && i'.Borrowed() == 0
    && w'.integrations == w.integrations[a[5] := i']
    && w'.reserves == w.reserves[a[6] := w'.reserves[a[6]]][a[9] := w'.reserves[a[9]]]
    && w'.reserves[a[6]].lastBalance == rA.lastBalance + returned
    && w'.reserves[a[9]].lastBalance == rB.lastBalance + gained
    && w'.log == w.log + [AccountingEvent(a[1], OfReserve(a[6]), a[8], Swap, SaturatingSub(i.Borrowed(), returned), Debit),
                          AccountingEvent(a[1], OfReserve(a[9]), a[11], Swap, gained, Credit)]
    && w'.repayments == w.repayments + [Repayment(a[6], i.Borrowed(), returned)]
  }

  lemma RepayIsBooked(w: World, c: Call, w': World)
    requires Ready(w, c) && RepayStep(w, c, w')
    ensures |c.ix.accounts| >= 17
    ensures exists returned, gained :: RepayBooks(w, w', c.ix.accounts, returned, gained)
  {
    hide ReservesValid, IntegrationsValid, VaultsOpen, RateLimit.WithInflow, Settle, CanSettle, Net, Surplus;
    var a := c.ix.accounts;
    SwapReservesDiffer(w, a[5], a[6], a[9]);
    IntegrationLimitValid(w, a[5]);
    var s := Settle(w, a, c.env);
    SettleSpends(w, a, c.env);
    assert RepayBooks(w, w', a, s.returned, s.gained);
  }

  lemma RepayReplaysAt(w: World, c: Call, w': World, a: seq<Pubkey>, returned: u64, gained: u64, k: Pubkey)
    requires ValidWorld(w) && |a| >= 17 && RepayBooks(w, w', a, returned, gained) && Effects(w, w', c) && ReplaysAt(w, k)
    ensures ReplaysAt(w', k)
  {
    hide Effects, Outstanding, Net, IntegrationsValid, VaultsOpen, ValidLimit;
    var i := w.integrations[a[5]];
    var out := AccountingEvent(a[1], OfReserve(a[6]), a[8], Swap, SaturatingSub(i.Borrowed(), returned), Debit);
    var into := AccountingEvent(a[1], OfReserve(a[9]), a[11], Swap, gained, Credit);
    NetOne(out, OfReserve(k));
    NetOne(into, OfReserve(k));
    assert [out, into] == [out] + [into];
    NetAppend([out], [into], OfReserve(k));
    NetAppend(w.log, [out, into], OfReserve(k));
    SurplusAppend(w.repayments, Repayment(a[6], i.Borrowed(), returned), k);
    if k in w.reserves {
      assert k in w'.reserves && ReserveEffect(c, w.reserves[k], w'.reserves[k]) by { ReservesKept(c, w, w', k); }
      LoansUpdated(w.integrations, a[5], w'.integrations[a[5]], w.reserves[k], w'.reserves[k]);
    }
  }

  lemma SurplusAppend(repayments: seq<Repayment>, last: Repayment, k: Pubkey)
    ensures Surplus(repayments + [last], k)
         == Surplus(repayments, k) + if last.reserve == k then Max(last.returned - last.borrowed, 0) else 0
  {
    assert (repayments + [last])[..|repayments|] == repayments;
  }

  lemma RepayReplays(w: World, c: Call, w': World)
    requires Ready(w, c) && c.Disc() == 16 && RepayStep(w, c, w') && Effects(w, w', c) && Replays(w)
    ensures Replays(w')
  {
    hide RepayStep, Effects, Net, Surplus, Level, ReplaysAt, IntegrationsValid, VaultsOpen;
    var a := c.ix.accounts;
    RepayIsBooked(w, c, w');
    var returned: u64, gained: u64 :| RepayBooks(w, w', a, returned, gained);
    forall k ensures ReplaysAt(w', k) { RepayReplaysAt(w, c, w', a, returned, gained, k); }
    StillBacked(w, c, w');
  }

  // ---------- every call ----------

  /** Every successful call keeps the log and the caches in step. */
  lemma ExecutesReplays(w: World, c: Call, w': World)
    requires Ready(w, c) && Executes(w, c, w') && Replays(w)
    ensures Replays(w')
  {
    hide ValidWorld, Effects, Replays, Booked, InitializeReserveStep, BorrowStep, RepayStep;
    ExecutesOk(w, c, w');
    if c.Disc() == 4 {
      assert InitializeReserveStep(w, c, w') by { DispatchedReserve(w, c, w'); }
      InitializeReserveReplays(w, c, w');
    } else if c.Disc() == 15 {
      BorrowTaken(w, c, w');
      BorrowReplays(w, c, w');
    } else if c.Disc() == 16 {
      RepayTaken(w, c, w');
      RepayReplays(w, c, w');
    } else {
      ExecutesBooks(w, c, w');
      BookedReplays(w, c, w');
    }
  }

  lemma DispatchedReserve(w: World, c: Call, w': World)
    requires Ready(w, c) && Executes(w, c, w') && c.Disc() == 4
    ensures InitializeReserveStep(w, c, w')
  {
    hide InitializeReserveStep, ValidWorld;
  }

  lemma OutsideReplays(w: World, w': World)
    requires Replays(w) && w' == w.(tokens := w'.tokens, clock := w'.clock)
    ensures Replays(w')
  {
    hide Outstanding, Net, Surplus;
    forall k ensures ReplaysAt(w', k) { assert ReplaysAt(w, k); }
    forall i | i in w'.integrations ensures BackedAt(w', i) { assert BackedAt(w, i); }
  }
}
