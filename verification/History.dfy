/** Everything that can happen from the empty world on: committed transactions and the passing of time. */
module History {
  import opened Words
  import opened RateLimit
  import opened Accounts
  import opened Machine
  import opened Transactions
  import opened Swap
  import opened Bridge
  import opened Bookkeeping
  import opened Replay
  import opened Lending
  import opened Governance
  import opened Runs
  import SwapTerms

  datatype Event =
    | Executed(t: Transaction)
    | Elapsed(clock: Clock)

  /** Nothing has been initialized; outsiders may hold any tokens. */
  ghost predicate Genesis(w: World) {
    && w.controllers == map[] && w.permissions == map[] && w.reserves == map[] && w.integrations == map[]
    && w.oracles == map[] && w.log == [] && w.repayments == []
  }

  ghost predicate Follows(w: World, e: Event, w': World) {
    match e
    case Executed(t) => t.Committed() && w == t.worlds[0] && w' == t.worlds[|t.steps|]
    case Elapsed(clock) => w.clock.ts <= clock.ts && w.clock.slot <= clock.slot && w' == w.(clock := clock)
  }

  ghost predicate IsHistory(worlds: seq<World>, events: seq<Event>) {
    && |worlds| == |events| + 1 && Genesis(worlds[0])
    && forall n :: 0 <= n < |events| ==> Follows(worlds[n], events[n], worlds[n + 1])
  }

  /** What every world between transactions satisfies. */
  ghost predicate Sound(w: World) {
    ValidWorld(w) && Quiet(w) && NoFlight(w) && Governed(w) && Replays(w)
  }

  lemma GenesisSound(w: World)
    requires Genesis(w)
    ensures Sound(w) && LendingReplays(w)
  {
    forall k ensures ReplaysAt(w, k) && LendingAt(w, k) { }
  }

  /** The books balance at every step inside a transaction too, loans included. */
  lemma {:induction false} ReplaysThroughout(t: Transaction, s: nat)
    requires t.Committed() && ValidWorld(t.worlds[0]) && Replays(t.worlds[0]) && s <= |t.steps|
    ensures Replays(t.worlds[s])
  {
    hide ValidWorld, Transaction.Scheduled, Executes, Replays;
    if s > 0 {
      ReplaysThroughout(t, s - 1);
      assert t.Takes(s - 1);
      if t.Calls(s - 1) {
        ExecutesReplays(t.worlds[s - 1], t.CallAt(s - 1), t.worlds[s]);
      } else {
        OutsideReplays(t.worlds[s - 1], t.worlds[s]);
      }
    }
  }

  lemma {:induction false} GovernedThroughout(t: Transaction, s: nat)
    requires t.Committed() && Governed(t.worlds[0]) && s <= |t.steps|
    ensures Governed(t.worlds[s])
  {
    hide Executes, ValidWorld, Transaction.Scheduled, Transaction.Takes, Governed, Leads;
    TransactionIsRun(t);
    NoLockOut(t.worlds, seq(|t.steps|, s requires 0 <= s < |t.steps| => MoveOf(t, s)), s);
  }

  lemma TransactionSound(t: Transaction)
    requires t.Committed() && Sound(t.worlds[0])
    ensures Sound(t.worlds[|t.steps|])
  {
    hide ValidWorld, Transaction.Scheduled, Transaction.Takes, Governed, Quiet, NoFlight, Replays, IsSwap, BridgedAt,
      EndsInReset;
    WorldsStayValid(t, |t.steps|);
    SwapAtomicity(t);
    BridgeOneToOne(t);
    GovernedThroughout(t, |t.steps|);
    ReplaysThroughout(t, |t.steps|);
  }

  lemma ElapsedSound(w: World, clock: Clock)
    requires Sound(w) && w.clock.ts <= clock.ts && w.clock.slot <= clock.slot
    ensures Sound(w.(clock := clock))
  {
    hide Replays, Governed, ValidWorld;
    ClockAdvances(w, clock);
    OutsideReplays(w, w.(clock := clock));
    SameGoverned(w, w.(clock := clock));
  }

  /** Every reachable world is sound: valid, with no swap open and no bridge push in flight, a manager for
      every controller, and books that balance. */
  lemma {:induction false} EveryWorldSound(worlds: seq<World>, events: seq<Event>, n: nat)
    requires IsHistory(worlds, events) && n < |worlds|
    ensures Sound(worlds[n])
  {
    hide Sound, Genesis, Transaction.Committed;
    if n == 0 {
      GenesisSound(worlds[0]);
    } else {
      EveryWorldSound(worlds, events, n - 1);
      assert Follows(worlds[n - 1], events[n - 1], worlds[n]);
      match events[n - 1]
      case Executed(t) => TransactionSound(t);
      case Elapsed(clock) => ElapsedSound(worlds[n - 1], clock);
    }
  }

  /** Event-log replay. In every reachable world, for every reserve: credits minus debits, and what
      repayments brought back above their loans, make the cached balance. */
  lemma EventLogReplay(worlds: seq<World>, events: seq<Event>, n: nat, key: Pubkey)
    requires IsHistory(worlds, events) && n < |worlds| && key in worlds[n].reserves
    ensures var w := worlds[n];
            Net(w.log, OfReserve(key)) + Surplus(w.repayments, key) == w.reserves[key].lastBalance
  {
    hide ValidWorld, Governed, Net, Surplus, Outstanding;
    EveryWorldSound(worlds, events, n);
    var w := worlds[n];
    assert ReplaysAt(w, key);
    NothingOutstanding(w.integrations, w.reserves[key]);
  }

  /** The log alone replays to the cached balance exactly when no repayment to the reserve ever brought
      back more than its loan. */
  lemma LogAloneReplays(worlds: seq<World>, events: seq<Event>, n: nat, key: Pubkey)
    requires IsHistory(worlds, events) && n < |worlds| && key in worlds[n].reserves
    ensures var w := worlds[n];
            && (Net(w.log, OfReserve(key)) == w.reserves[key].lastBalance
                <==> forall m :: 0 <= m < |w.repayments| && w.repayments[m].reserve == key ==>
                       w.repayments[m].returned <= w.repayments[m].borrowed)
  {
    hide Net, Surplus, IsHistory;
    EventLogReplay(worlds, events, n, key);
    NoSurplus(worlds[n].repayments, key);
  }

  lemma {:induction false} NoSurplus(repayments: seq<Repayment>, key: Pubkey)
    ensures Surplus(repayments, key) == 0
       <==> forall m :: 0 <= m < |repayments| && repayments[m].reserve == key ==>
              repayments[m].returned <= repayments[m].borrowed
  {
    if repayments != [] {
      var earlier := repayments[..|repayments| - 1];
      NoSurplus(earlier, key);
      assert forall m :: 0 <= m < |earlier| ==> earlier[m] == repayments[m];
    }
  }

  // ---------- swaps and their oracles ----------

  lemma {:induction false} QuotedThroughout(t: Transaction, s: nat)
    requires t.Committed() && SwapTerms.AllQuoted(t.worlds[0]) && s <= |t.steps|
    ensures SwapTerms.AllQuoted(t.worlds[s])
  {
    hide ValidWorld, Transaction.Scheduled, Executes;
    if s > 0 {
      QuotedThroughout(t, s - 1);
      assert t.Takes(s - 1);
      if t.Calls(s - 1) {
        SwapTerms.ExecutesQuoted(t.worlds[s - 1], t.CallAt(s - 1), t.worlds[s]);
      }
    }
  }

  /** In every reachable world each swap integration has an oracle of its own controller that quotes its pair in
      its direction: what initialization checked nothing undoes, however feeds and authorities are replaced. */
  lemma {:induction false} EverySwapQuoted(worlds: seq<World>, events: seq<Event>, n: nat)
    requires IsHistory(worlds, events) && n < |worlds|
    ensures SwapTerms.AllQuoted(worlds[n])
  {
    hide Transaction.Scheduled, Transaction.Takes;
    if n > 0 {
      EverySwapQuoted(worlds, events, n - 1);
      assert Follows(worlds[n - 1], events[n - 1], worlds[n]);
      match events[n - 1]
      case Executed(t) => QuotedThroughout(t, |t.steps|);
      case Elapsed(clock) =>
    }
  }

  // ---------- the lending log ----------

  ghost predicate HonestlyLent(t: Transaction) {
    forall s :: t.Calls(s) ==> Honest(t.CallAt(s))
  }

  lemma {:induction false} LendingThroughout(t: Transaction, s: nat)
    requires t.Committed() && LendingReplays(t.worlds[0]) && s <= |t.steps|
    requires HonestlyLent(t)
    ensures LendingReplays(t.worlds[s])
  {
    hide ValidWorld, Transaction.Scheduled, Executes, LendingReplays, Honest;
    if s > 0 {
      LendingThroughout(t, s - 1);
      assert t.Takes(s - 1);
      if t.Calls(s - 1) {
        ExecutesLending(t.worlds[s - 1], t.CallAt(s - 1), t.worlds[s]);
      } else {
        OutsideLending(t.worlds[s - 1], t.worlds[s]);
      }
    }
  }

  /** Lending log replay: while the lending protocol behaves, what is recorded for every lending
      integration is the balance stored for it. */
  lemma {:induction false} LendingLogReplay(worlds: seq<World>, events: seq<Event>, n: nat)
    requires IsHistory(worlds, events) && n < |worlds|
    requires forall m :: 0 <= m < n && events[m].Executed? ==> HonestlyLent(events[m].t)
    ensures LendingReplays(worlds[n])
  {
    hide Genesis, Transaction.Committed, LendingReplays, HonestlyLent;
    if n == 0 {
      GenesisSound(worlds[0]);
    } else {
      LendingLogReplay(worlds, events, n - 1);
      assert Follows(worlds[n - 1], events[n - 1], worlds[n]);
      match events[n - 1]
      case Executed(t) => LendingToTheEnd(t);
      case Elapsed(clock) => OutsideLending(worlds[n - 1], worlds[n]);
    }
  }

  lemma LendingToTheEnd(t: Transaction)
    requires t.Committed() && LendingReplays(t.worlds[0]) && HonestlyLent(t)
    ensures LendingReplays(t.worlds[|t.steps|])
  {
    LendingThroughout(t, |t.steps|);
  }
}
