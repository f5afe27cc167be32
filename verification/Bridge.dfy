/** LayerZero pushes, over whole committed transactions. */
module Bridge {
  import opened Words
  import opened Accounts
  import opened Introspection
  import opened Handlers
  import opened Machine
  import opened Transactions
  import Swap

  /** No bridge push is in flight. */
  ghost predicate NoFlight(w: World) {
    forall k :: k in w.integrations ==> !w.integrations[k].InFlight()
  }

  /** No bridge push is in flight but `i`'s. */
  ghost predicate OnlyFlight(w: World, i: Pubkey) {
    && i in w.integrations && w.integrations[i].InFlight()
    && forall k :: k in w.integrations && k != i ==> !w.integrations[k].InFlight()
  }

  ghost predicate FlightOf(w: World, i: Pubkey) {
    i in w.integrations && w.integrations[i].InFlight()
  }

  lemma FlightStays(w: World, c: Call, w': World, i: Pubkey)
    requires Effects(w, w', c) && FlightOf(w, i) && !c.IsReset()
    ensures FlightOf(w', i)
  {
  }

  lemma FlightStarts(w: World, c: Call, w': World, i: Pubkey)
    requires Effects(w, w', c) && c.IsLzPush() && IntegrationOf(c) == i && i in w.integrations
    ensures FlightOf(w', i)
    ensures NoFlight(w) ==> OnlyFlight(w', i)
  {
  }

  lemma NoOtherFlight(w: World, c: Call, w': World, i: Pubkey)
    requires Effects(w, w', c) && !c.IsLzPush()
    ensures NoFlight(w) ==> NoFlight(w')
    ensures OnlyFlight(w, i) && !c.IsReset() ==> OnlyFlight(w', i)
    ensures OnlyFlight(w, i) && c.IsReset() && IntegrationOf(c) == i ==> NoFlight(w')
  {
  }

  /** The next-to-last instruction is a send by the configured program, signed by the pusher, of exactly
      `amount` tokens of this mint, from the account the vault paid into to the configured destination. */
  ghost predicate SentOn(send: Instruction, config: IntegrationConfig, a: seq<Pubkey>, amount: int)
    requires |a| >= 14 && config.LzBridgeConfig?
  {
    && send.program == config.program && send.data.OftSend?
    && send.data.amountLd == amount
    && send.data.dstEid == config.destinationEid && send.data.to == config.destinationAddress
    && |send.accounts| >= 7
    && send.accounts[0] == a[2] && send.accounts[1] == config.peerConfig && send.accounts[2] == config.oftStore
    && send.accounts[3] == a[9] && send.accounts[4] == config.oftTokenEscrow
    && send.accounts[5] == a[7] && send.accounts[6] == a[10]
  }

  /** This program's reset of the integration. */
  predicate Resets(reset: Instruction, integration: Pubkey) {
    && reset.program == PROGRAM_ID && reset.data.Command? && reset.data.disc == 17
    && |reset.accounts| >= 2 && reset.accounts[1] == integration
  }

  /** What a push demands and does: the transaction ends in it, the send and the reset; what leaves the
      vault is what is sent on; and the vault's cached balance agrees again. */
  ghost predicate Bridged(w: World, w': World, ixs: seq<Instruction>, cur: nat, a: seq<Pubkey>, amount: u64)
    requires |a| >= 14
  {
    && a[4] in w.integrations && !w.integrations[a[4]].InFlight()
    && w.integrations[a[4]].config.LzBridgeConfig? && w.integrations[a[4]].config.mint == a[7]
    && a[5] in w.reserves && a[5] in w'.reserves && w.reserves[a[5]].vault == a[8] && w.reserves[a[5]].mint == a[7]
    && a[8] in w.tokens && a[8] in w'.tokens
    && w'.tokens[a[8]].amount == w.tokens[a[8]].amount - amount
    && w'.reserves[a[5]].lastBalance == w'.tokens[a[8]].amount
    && |ixs| == cur + 3
    && SentOn(ixs[|ixs| - 2], w.integrations[a[4]].config, a, w.tokens[a[8]].amount - w'.tokens[a[8]].amount)
    && Resets(ixs[|ixs| - 1], a[4])
  }

  lemma PushBridges(w: World, c: Call, w': World)
    requires Ready(w, c) && PushLzBridgeStep(w, c, w')
    ensures |c.ix.accounts| >= 14 && Bridged(w, w', c.ixs, c.cur, c.ix.accounts, c.ix.data.args.amount)
  {
    hide RateLimit.Refreshed, RateLimit.WithOutflow, SyncedReserve, SyncEvents, ReservesValid, IntegrationsValid,
      SendFollows, Sent, CanSend;
    var a := c.ix.accounts;
    ReserveLimitValid(w, a[5]);
    SendIsSpelledOut(c.ixs, c.cur, a, w.integrations[a[4]].config, c.ix.data.args.amount);
  }

  lemma SendIsSpelledOut(ixs: seq<Instruction>, cur: nat, a: seq<Pubkey>, config: IntegrationConfig, amount: u64)
    requires |a| >= 14 && config.LzBridgeConfig?
    ensures SendFollows(ixs, cur, a[2], a[9], a[7], a[10], config, a[4], amount)
       <==> |ixs| == cur + 3 && SentOn(ixs[|ixs| - 2], config, a, amount) && Resets(ixs[|ixs| - 1], a[4])
  {
    if |ixs| == cur + 3 && |ixs[|ixs| - 2].accounts| >= 7 {
      var firstSeven := ixs[|ixs| - 2].accounts[..7];
      assert forall k :: 0 <= k < 7 ==> ixs[|ixs| - 2].accounts[k] == firstSeven[k];
      assert SentOn(ixs[|ixs| - 2], config, a, amount) ==>
        firstSeven == [a[2], config.peerConfig, config.oftStore, a[9], config.oftTokenEscrow, a[7], a[10]];
    }
  }

  // ---------- one transaction ----------

  predicate ResetsAt(t: Transaction, s: int) {
    t.Calls(s) && t.CallAt(s).IsReset()
  }

  ghost predicate BridgedAt(t: Transaction, p: nat)
    requires |t.worlds| == |t.steps| + 1 && t.LzPushesAt(p)
  {
    var c := t.CallAt(p);
    && |c.ix.accounts| >= 14 && IntegrationOf(c) == c.ix.accounts[4]
    && Bridged(t.worlds[p], t.worlds[p + 1], t.ixs, c.cur, c.ix.accounts, c.ix.data.args.amount)
  }

  lemma PushPromises(t: Transaction, p: nat)
    requires t.Committed() && t.LzPushesAt(p)
    ensures BridgedAt(t, p)
  {
    hide ValidWorld, Transaction.Scheduled, Executes, PushLzBridgeStep, Bridged;
    assert t.Takes(p);
    LzPushTaken(t.worlds[p], t.CallAt(p), t.worlds[p + 1]);
    PushBridges(t.worlds[p], t.CallAt(p), t.worlds[p + 1]);
  }

  /** The last step is the reset of the pushed integration. */
  ghost predicate EndsInReset(t: Transaction, i: Pubkey) {
    var last := |t.steps| - 1;
    ResetsAt(t, last) && IntegrationOf(t.CallAt(last)) == i
  }

  lemma PushEndsInReset(t: Transaction, p: nat)
    requires t.Committed() && t.LzPushesAt(p)
    ensures p < |t.steps| - 1 && EndsInReset(t, IntegrationOf(t.CallAt(p)))
    ensures var reset := t.ixs[|t.ixs| - 1];
            && |reset.accounts| > RESET_INTEGRATION_INDEX
            && IntegrationOf(t.CallAt(p)) == reset.accounts[RESET_INTEGRATION_INDEX]
  {
    PushPromises(t, p);
    var j := |t.ixs| - 1;
    assert t.OwnAt(j);
    var s :| 0 <= s < |t.steps| && t.steps[s].cur == j;
    var last := |t.steps| - 1;
    assert t.steps[s].cur <= t.steps[last].cur;
    assert s == last && p < last;
  }

  /** Resets happen in the last step only. */
  lemma ResetIsLast(t: Transaction, s: nat)
    requires t.Committed() && ValidWorld(t.worlds[0]) && ResetsAt(t, s)
    ensures s == |t.steps| - 1
  {
    hide ValidWorld, Transaction.Takes, Effects;
    WorldsStayValid(t, s);
    StepOk(t, s);
    assert t.OwnAt(t.steps[s].cur);
    assert t.steps[s].cur <= t.steps[|t.steps| - 1].cur;
  }

  lemma {:induction false} FlightUntil(t: Transaction, p: nat, s: nat)
    requires t.Committed() && ValidWorld(t.worlds[0]) && t.LzPushesAt(p) && p < s < |t.steps|
    ensures FlightOf(t.worlds[s], IntegrationOf(t.CallAt(p)))
  {
    hide ValidWorld, Transaction.Scheduled, Transaction.Takes, Effects, Gated, FlightOf;
    var i := IntegrationOf(t.CallAt(p));
    WorldsStayValid(t, s - 1);
    StepOk(t, s - 1);
    if s == p + 1 {
      assert i in t.worlds[p].integrations by { PushPromises(t, p); }
      FlightStarts(t.worlds[p], t.CallAt(p), t.worlds[s], i);
    } else {
      FlightUntil(t, p, s - 1);
      if t.Calls(s - 1) {
        if ResetsAt(t, s - 1) { ResetIsLast(t, s - 1); }
        FlightStays(t.worlds[s - 1], t.CallAt(s - 1), t.worlds[s], i);
      } else {
        FlightUnmoved(t.worlds[s - 1], t.worlds[s], i);
      }
    }
  }

  lemma FlightUnmoved(w: World, w': World, i: Pubkey)
    requires FlightOf(w, i) && w' == w.(tokens := w'.tokens)
    ensures FlightOf(w', i)
  {
  }

  /** The second push would find the first, of the same integration, still in flight. */
  lemma NoLaterPush(t: Transaction, p: nat, q: nat)
    requires t.Committed() && ValidWorld(t.worlds[0]) && p < q && t.LzPushesAt(p)
    ensures !t.LzPushesAt(q)
  {
    hide ValidWorld, Transaction.Scheduled, Transaction.Takes;
    if t.LzPushesAt(q) {
      PushEndsInReset(t, p);
      PushEndsInReset(t, q);
      PushPromises(t, q);
      FlightUntil(t, p, q);
    }
  }

  lemma {:induction false} NoFlightPrefix(t: Transaction, s: nat)
    requires t.Committed() && ValidWorld(t.worlds[0]) && NoFlight(t.worlds[0]) && s <= |t.steps|
    requires forall p :: 0 <= p < s ==> !t.LzPushesAt(p)
    ensures NoFlight(t.worlds[s])
  {
    hide ValidWorld, Transaction.Scheduled, Transaction.Takes, Effects, Gated;
    if s > 0 {
      NoFlightPrefix(t, s - 1);
      WorldsStayValid(t, s - 1);
      StepOk(t, s - 1);
      assert !t.LzPushesAt(s - 1);
      if t.Calls(s - 1) {
        NoOtherFlight(t.worlds[s - 1], t.CallAt(s - 1), t.worlds[s], PROGRAM_ID);
      }
    }
  }

  /** From the push to the reset only the pushed integration is in flight. */
  lemma {:induction false} OnlyFlightRun(t: Transaction, p: nat, s: nat)
    requires t.Committed() && ValidWorld(t.worlds[0]) && t.LzPushesAt(p) && p < s < |t.steps| && NoFlight(t.worlds[p])
    ensures OnlyFlight(t.worlds[s], IntegrationOf(t.CallAt(p)))
  {
    hide ValidWorld, Transaction.Scheduled, Transaction.Takes, Effects, Gated, OnlyFlight, NoFlight;
    var i := IntegrationOf(t.CallAt(p));
    WorldsStayValid(t, s - 1);
    StepOk(t, s - 1);
    if s == p + 1 {
      assert i in t.worlds[p].integrations by { PushPromises(t, p); }
      FlightStarts(t.worlds[p], t.CallAt(p), t.worlds[s], i);
    } else {
      OnlyFlightRun(t, p, s - 1);
      NoLaterPush(t, p, s - 1);
      if t.Calls(s - 1) {
        if ResetsAt(t, s - 1) { ResetIsLast(t, s - 1); }
        NoOtherFlight(t.worlds[s - 1], t.CallAt(s - 1), t.worlds[s], i);
      } else {
        OnlyFlightUnmoved(t.worlds[s - 1], t.worlds[s], i);
      }
    }
  }

  lemma OnlyFlightUnmoved(w: World, w': World, i: Pubkey)
    requires OnlyFlight(w, i) && w' == w.(tokens := w'.tokens)
    ensures OnlyFlight(w', i)
  {
  }

  lemma NoBorrowBesidePush(t: Transaction, p: nat, b: nat)
    requires t.Committed() && t.LzPushesAt(p)
    ensures !t.BorrowsAt(b)
  {
    hide Transaction.Takes, Transaction.Scheduled;
    PushEndsInReset(t, p);
    if t.BorrowsAt(b) {
      Swap.BorrowShape(t, b);
    }
  }

  lemma PushAt(t: Transaction, p: nat)
    requires t.Committed() && ValidWorld(t.worlds[0]) && NoFlight(t.worlds[0]) && t.LzPushesAt(p)
    ensures NoFlight(t.worlds[|t.steps|]) && BridgedAt(t, p) && EndsInReset(t, IntegrationOf(t.CallAt(p)))
    ensures forall q :: t.LzPushesAt(q) ==> q == p
    ensures forall b :: !t.BorrowsAt(b)
  {
    hide ValidWorld, Transaction.Scheduled, Transaction.Takes, Effects, Gated, OnlyFlight, NoFlight, BridgedAt;
    var i := IntegrationOf(t.CallAt(p));
    PushPromises(t, p);
    PushEndsInReset(t, p);
    forall q | t.LzPushesAt(q) ensures q == p {
      if p < q { NoLaterPush(t, p, q); } else if q < p { NoLaterPush(t, q, p); }
    }
    forall b ensures !t.BorrowsAt(b) { if b >= 0 { NoBorrowBesidePush(t, p, b); } }
    NoFlightPrefix(t, p);
    var last := |t.steps| - 1;
    OnlyFlightRun(t, p, last);
    WorldsStayValid(t, last);
    StepOk(t, last);
    NoOtherFlight(t.worlds[last], t.CallAt(last), t.worlds[last + 1], i);
  }

  /** LayerZero one-to-one. A committed transaction bridges at most once, however often a push is
      invoked; the amount that leaves the vault is the amount of the one adjacent send to the configured
      destination; nothing is in flight at the end; and no swap is opened in the same transaction. */
  lemma BridgeOneToOne(t: Transaction)
    requires t.Committed() && ValidWorld(t.worlds[0]) && NoFlight(t.worlds[0])
    ensures NoFlight(t.worlds[|t.steps|])
    ensures forall p, q :: t.LzPushesAt(p) && t.LzPushesAt(q) ==> p == q
    ensures forall p :: t.LzPushesAt(p) ==> BridgedAt(t, p) && EndsInReset(t, IntegrationOf(t.CallAt(p)))
    ensures (exists p :: t.LzPushesAt(p)) ==> forall b :: !t.BorrowsAt(b)
  {
    hide ValidWorld, Transaction.Scheduled, Transaction.Takes, NoFlight, BridgedAt, EndsInReset;
    if p :| t.LzPushesAt(p) {
      PushAt(t, p);
    } else {
      NoFlightPrefix(t, |t.steps|);
    }
  }
}
