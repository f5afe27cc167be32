/** Atomic swaps, over whole committed transactions. */
module Swap {
  import opened Words
  import opened RateLimit
  import opened Accounts
  import opened Introspection
  import opened Handlers
  import opened Machine
  import opened Transactions
  import opened Pricing

  /** No controller is locked and nothing is borrowed. */
  ghost predicate Quiet(w: World) {
    && (forall k :: k in w.controllers ==> !w.controllers[k].status.AtomicSwapLock?)
    && (forall k :: k in w.integrations ==> w.integrations[k].Borrowed() == 0)
  }

  /** While nothing has been borrowed, nothing is: only a borrow ends a quiet spell. */
  lemma QuietUntilBorrow(w: World, c: Call, w': World)
    requires Quiet(w) && Effects(w, w', c) && !c.IsBorrow()
    ensures Quiet(w')
  {
  }

  /** `w` lies between the borrow that led to `start` and its repay: no lock but `key`'s, no loan but
      `i`'s; and as long as the lock holds, everything the controller owns is as the borrow left it. */
  ghost predicate Bracketed(start: World, w: World, key: Pubkey, i: Pubkey) {
    && w.clock == start.clock
    && key in w.controllers
    && (forall k :: k in w.controllers && k != key ==> !w.controllers[k].status.AtomicSwapLock?)
    && (forall k :: k in w.integrations && k != i ==> w.integrations[k].Borrowed() == 0)
    && (w.controllers[key].status.AtomicSwapLock? ==> Held(start, w, key))
  }

  /** The controller's reserves and integrations are those of `start`. */
  ghost predicate Held(start: World, w: World, key: Pubkey) {
    && (forall k :: k in start.reserves && start.reserves[k].controller == key ==>
          k in w.reserves && w.reserves[k] == start.reserves[k])
    && (forall k :: k in start.integrations && start.integrations[k].controller == key ==>
          k in w.integrations && w.integrations[k] == start.integrations[k])
  }

  lemma BorrowOpensBracket(w: World, c: Call, w': World)
    requires c.cur < |c.ixs| && Quiet(w) && Effects(w, w', c) && Gated(w, c, w') && c.IsBorrow()
    ensures Bracketed(w', w', ControllerOf(c), IntegrationOf(c))
  {
  }

  /** A locked controller's accounts change only by a call that takes the lock away. */
  lemma LockHolds(w: World, c: Call, w': World, key: Pubkey)
    requires c.cur < |c.ixs| && Effects(w, w', c) && Gated(w, c, w') && !c.IsReset()
    requires key in w.controllers && w.controllers[key].status.AtomicSwapLock?
    ensures key in w'.controllers
    ensures w'.controllers[key].status.AtomicSwapLock? ==> Held(w, w', key)
  {
  }

  lemma BracketKept(start: World, w: World, c: Call, w': World, key: Pubkey, i: Pubkey)
    requires Bracketed(start, w, key, i) && c.cur < |c.ixs| && Effects(w, w', c) && Gated(w, c, w')
    requires !c.IsReset() && !c.IsBorrow()
    ensures Bracketed(start, w', key, i)
  {
    if w.controllers[key].status.AtomicSwapLock? {
      LockHolds(w, c, w', key);
    }
  }

  // ---------- one transaction ----------

  /** A repay of the integration that `a` borrows through, paid from the two accounts the borrow pays out to,
      neither of which is the vault of its token. */
  predicate PaysBack(repay: Instruction, a: seq<Pubkey>)
    requires |a| >= 15
  {
    && repay.program == PROGRAM_ID && repay.data.Command? && repay.data.disc == 16
    && |repay.accounts| >= 15 && repay.accounts[5] == a[4]
    && repay.accounts[13] == a[10] && repay.accounts[14] == a[11]
    && repay.accounts[13] != a[6] && repay.accounts[14] != a[9]
  }

  /** The shape of a committed transaction with a borrow at step `b`: the last step is the repay of the
      same integration, and no instruction of this program runs in between except by invocation. */
  ghost predicate BracketShape(t: Transaction, b: nat) {
    var last := |t.steps| - 1;
    && b < last && t.BorrowsAt(b) && t.RepaysAt(last)
    && t.OwnAt(t.steps[b].cur)
    && |t.CallAt(b).ix.accounts| >= 15
    && var a := t.CallAt(b).ix.accounts;
    && PaysBack(t.CallAt(last).ix, a) && t.CallAt(last).ix == t.ixs[|t.ixs| - 1]
    && (forall s :: b < s < last ==> !t.OwnAt(t.steps[s].cur))
  }

  lemma BorrowShape(t: Transaction, b: nat)
    requires t.Committed() && t.BorrowsAt(b)
    ensures BracketShape(t, b)
  {
    var c := t.CallAt(b);
    var last := |t.steps| - 1;
    BorrowPromises(t, b);
    var j := |t.ixs| - 1;
    assert t.OwnAt(j);
    var s :| 0 <= s < |t.steps| && t.steps[s].cur == j;
    assert t.steps[s].cur <= t.steps[last].cur;
    assert s == last && b < last;
    forall s | b < s < last ensures !t.OwnAt(t.steps[s].cur) {
      assert t.steps[b].cur <= t.steps[s].cur <= t.steps[last].cur;
    }
  }

  lemma BorrowPromises(t: Transaction, b: nat)
    requires t.Committed() && t.BorrowsAt(b)
    ensures var c := t.CallAt(b); var a := c.ix.accounts;
            |a| >= 15 && RepayFollows(t.ixs, c.cur, a[4], a[10], a[11], a[6], a[9])
  {
    hide Transaction.Scheduled, Executes, ValidWorld, BorrowPost, RepayFollows;
    assert t.Takes(b);
    BorrowTaken(t.worlds[b], t.CallAt(b), t.worlds[b + 1]);
  }

  /** Two borrows would each have to come after the other. */
  lemma OneBorrow(t: Transaction, b: nat, r: nat)
    requires t.Committed() && t.BorrowsAt(b) && t.BorrowsAt(r)
    ensures b == r
  {
    hide Transaction.Takes;
    BorrowShape(t, b);
    BorrowShape(t, r);
  }

  /** Until a borrow, the world stays quiet, so no repay can succeed. */
  lemma {:induction false} QuietPrefix(t: Transaction, s: nat)
    requires t.Committed() && s <= |t.steps| && ValidWorld(t.worlds[0]) && Quiet(t.worlds[0])
    requires forall b :: 0 <= b < s ==> !t.BorrowsAt(b)
    ensures Quiet(t.worlds[s])
    ensures forall r :: 0 <= r < s ==> !t.RepaysAt(r)
  {
    hide ValidWorld, Transaction.Scheduled, Transaction.Takes, Effects;
    if s > 0 {
      QuietPrefix(t, s - 1);
      WorldsStayValid(t, s - 1);
      StepOk(t, s - 1);
      assert !t.BorrowsAt(s - 1);
      if t.Calls(s - 1) {
        QuietUntilBorrow(t.worlds[s - 1], t.CallAt(s - 1), t.worlds[s]);
      }
    }
  }

  /** From the borrow to its repay the bracket holds. */
  lemma {:induction false} BracketRun(t: Transaction, b: nat, s: nat)
    requires t.Committed() && ValidWorld(t.worlds[0])
    requires b < s < |t.steps| && t.BorrowsAt(b) && BracketShape(t, b) && Quiet(t.worlds[b])
    ensures var c := t.CallAt(b);
            Bracketed(t.worlds[b + 1], t.worlds[s], ControllerOf(c), IntegrationOf(c))
  {
    hide ValidWorld, Transaction.Scheduled, Transaction.Takes, Effects, Bracketed, Executes;
    var key, i := ControllerOf(t.CallAt(b)), IntegrationOf(t.CallAt(b));
    WorldsStayValid(t, s - 1);
    StepOk(t, s - 1);
    if s == b + 1 {
      BorrowOpensBracket(t.worlds[b], t.CallAt(b), t.worlds[s]);
    } else {
      BracketRun(t, b, s - 1);
      assert !t.OwnAt(t.steps[s - 1].cur);
      if t.Calls(s - 1) {
        BracketKept(t.worlds[b + 1], t.worlds[s - 1], t.CallAt(s - 1), t.worlds[s], key, i);
      } else {
        BracketOutside(t.worlds[b + 1], t.worlds[s - 1], t.worlds[s], key, i);
      }
    }
  }

  lemma BracketOutside(start: World, w: World, w': World, key: Pubkey, i: Pubkey)
    requires Bracketed(start, w, key, i) && w' == w.(tokens := w'.tokens)
    ensures Bracketed(start, w', key, i)
  {
  }

  predicate Locked(w: World, key: Pubkey) {
    key in w.controllers && w.controllers[key].status.AtomicSwapLock?
  }

  /** A lock once gone stays gone: only a borrow could set it again. */
  lemma {:induction false} UnlockedForGood(t: Transaction, b: nat, s: nat, last: nat)
    requires t.Committed() && ValidWorld(t.worlds[0]) && t.BorrowsAt(b) && BracketShape(t, b) && Quiet(t.worlds[b])
    requires b < s <= last < |t.steps| && Locked(t.worlds[last], ControllerOf(t.CallAt(b)))
    ensures Locked(t.worlds[s], ControllerOf(t.CallAt(b)))
    decreases last - s
  {
    hide ValidWorld, Transaction.Scheduled, Transaction.Takes, Bracketed, Executes, Gated;
    if s < last {
      UnlockedForGood(t, b, s + 1, last);
      WorldsStayValid(t, s);
      StepOk(t, s);
      BracketRun(t, b, s);
      OneBorrowElsewhere(t, b, s);
      BracketKey(t.worlds[b + 1], t.worlds[s], ControllerOf(t.CallAt(b)), IntegrationOf(t.CallAt(b)));
    }
  }

  lemma BracketKey(start: World, w: World, key: Pubkey, i: Pubkey)
    requires Bracketed(start, w, key, i)
    ensures key in w.controllers
  {
  }

  lemma OneBorrowElsewhere(t: Transaction, b: nat, s: nat)
    requires t.Committed() && t.BorrowsAt(b) && s != b
    ensures !t.BorrowsAt(s)
  {
    if t.BorrowsAt(s) { OneBorrow(t, b, s); }
  }

  /** A whole swap: from the borrow at `b` to the repay in the last step the controller is locked, and
      its reserves and integrations stay exactly as the borrow left them. */
  ghost predicate IsSwap(t: Transaction, b: nat)
    requires |t.worlds| == |t.steps| + 1
  {
    var last := |t.steps| - 1;
    && BracketShape(t, b)
    && ControllerOf(t.CallAt(last)) == ControllerOf(t.CallAt(b))
    && IntegrationOf(t.CallAt(last)) == IntegrationOf(t.CallAt(b))
    && forall s :: b < s <= last ==>
         Locked(t.worlds[s], ControllerOf(t.CallAt(b))) && Held(t.worlds[b + 1], t.worlds[s], ControllerOf(t.CallAt(b)))
  }

  lemma BracketHeld(start: World, w: World, key: Pubkey, i: Pubkey)
    requires Bracketed(start, w, key, i) && Locked(w, key)
    ensures Held(start, w, key)
  {
  }

  /** The only lock there is to be repaid is the borrow's, and the repay names its integration. */
  lemma RepayClosesBracket(start: World, w: World, c: Call, w': World, key: Pubkey, i: Pubkey)
    requires Bracketed(start, w, key, i) && c.cur < |c.ixs| && Effects(w, w', c) && Gated(w, c, w') && c.IsRepay()
    ensures ControllerOf(c) == key && Locked(w, key)
    ensures IntegrationOf(c) == i ==> Quiet(w')
  {
  }

  lemma SwapAt(t: Transaction, b: nat)
    requires t.Committed() && ValidWorld(t.worlds[0]) && Quiet(t.worlds[0]) && t.BorrowsAt(b)
    ensures b < |t.steps| - 1 && Quiet(t.worlds[b]) && Quiet(t.worlds[|t.steps|])
    ensures IsSwap(t, b)
    ensures forall r :: t.RepaysAt(r) ==> r == |t.steps| - 1
  {
    hide ValidWorld, Transaction.Scheduled, Transaction.Takes, Bracketed, Executes, Gated, Effects, Quiet, Held;
    var last := |t.steps| - 1;
    var key, i := ControllerOf(t.CallAt(b)), IntegrationOf(t.CallAt(b));
    BorrowShape(t, b);
    forall r | 0 <= r < b ensures !t.BorrowsAt(r) { OneBorrowElsewhere(t, b, r); }
    QuietPrefix(t, b);
    BracketRun(t, b, last);
    WorldsStayValid(t, last);
    StepOk(t, last);
    RepayClosesBracket(t.worlds[b + 1], t.worlds[last], t.CallAt(last), t.worlds[last + 1], key, i);
    forall s | b < s <= last ensures Locked(t.worlds[s], key) && Held(t.worlds[b + 1], t.worlds[s], key) {
      UnlockedForGood(t, b, s, last);
      BracketRun(t, b, s);
      BracketHeld(t.worlds[b + 1], t.worlds[s], key, i);
    }
    forall r | t.RepaysAt(r) ensures r == last {
      if b < r < last { NoRepayInside(t, b, r, key); }
    }
  }

  lemma NoRepayInside(t: Transaction, b: nat, r: nat, key: Pubkey)
    requires t.Committed() && b < r && r + 1 < |t.steps| && ValidWorld(t.worlds[0])
    requires t.BorrowsAt(b) && BracketShape(t, b) && Quiet(t.worlds[b]) && key == ControllerOf(t.CallAt(b))
    requires Locked(t.worlds[r + 1], key)
    ensures !t.RepaysAt(r)
  {
    hide ValidWorld, Transaction.Scheduled, Transaction.Takes, Bracketed, Executes, Effects, Quiet;
    BracketRun(t, b, r);
    WorldsStayValid(t, r);
    StepOk(t, r);
    if t.RepaysAt(r) {
      RepayClosesBracket(t.worlds[b + 1], t.worlds[r], t.CallAt(r), t.worlds[r + 1], key, IntegrationOf(t.CallAt(b)));
    }
  }

  /** Swap atomicity. Whatever a transaction invokes, directly or through other programs: if it commits
      it ends as quietly as it began, with no lock and no loan; it borrows at most once; and a borrow is
      followed, in the very last step, by the only repay, of the same integration. */
  lemma SwapAtomicity(t: Transaction)
    requires t.Committed() && ValidWorld(t.worlds[0]) && Quiet(t.worlds[0])
    ensures Quiet(t.worlds[|t.steps|])
    ensures forall b, r :: t.BorrowsAt(b) && t.BorrowsAt(r) ==> b == r
    ensures forall b :: t.BorrowsAt(b) ==> IsSwap(t, b)
    ensures forall r :: t.RepaysAt(r) ==> r == |t.steps| - 1 && exists b :: t.BorrowsAt(b)
  {
    hide ValidWorld, Transaction.Scheduled, Transaction.Takes, Quiet, IsSwap;
    forall b, r | t.BorrowsAt(b) && t.BorrowsAt(r) ensures b == r { OneBorrow(t, b, r); }
    forall b | t.BorrowsAt(b) ensures IsSwap(t, b) { SwapAt(t, b); }
    if b :| t.BorrowsAt(b) {
      SwapAt(t, b);
    } else {
      QuietPrefix(t, |t.steps|);
    }
  }
}
