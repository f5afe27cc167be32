/**
 A committed swap that brings back more than the loan, spelled out from the empty world on. One of ten
 tokens is borrowed; while a foreign instruction runs, the payer comes by a second one; both go back. The
 log replayed to the balance before the transaction and no longer does after it: the input leg's event
 saturates at zero, so the surplus goes unrecorded.
 */
module ExcessRepayment {
  import opened Words
  import opened RateLimit
  import opened Accounts
  import opened Introspection
  import opened Handlers
  import opened Machine
  import opened Transactions
  import opened Swap
  import opened Setup
  import History
  import Processors

  function Borrowed(tokens: Ledger): World {
    Scene(AtomicSwapLock, Limit(99), 9, Limit(99), AtomicSwapState(10, 5, 1, 0, 0), tokens)
  }

  const BORROW := Instruction(PROGRAM_ID, Command(15, Args.Borrow(1)),
                              [CONTROLLER, AUTHORITY, RELAYER, PERMISSION, INTEGRATION, RESERVE_A, VAULT_A, MINT_A,
                               RESERVE_B, VAULT_B, PAYER_A, PAYER_B, FOREIGN, FOREIGN, PROGRAM_ID])

  const TRADE := Instruction(FOREIGN, Other, [])

  const REPAY := Instruction(PROGRAM_ID, Command(16, NoArgs),
                             [RELAYER, CONTROLLER, AUTHORITY, RELAYER, PERMISSION, INTEGRATION, RESERVE_A, VAULT_A,
                              MINT_A, RESERVE_B, VAULT_B, MINT_B, ORACLE, PAYER_A, PAYER_B, FOREIGN, FOREIGN])

  const SWAP := [BORROW, TRADE, REPAY]

  lemma SceneIsValid(status: ControllerStatus, limitA: Bucket, balanceA: u64, limit: Bucket, state: IntegrationState,
                     tokens: Ledger)
    requires limitA.Valid() && limitA.lastTs == NOW.ts && limit.Valid() && limit.lastTs == NOW.ts
    requires state.AtomicSwapState?
    requires VAULT_A in tokens && tokens[VAULT_A].mint == MINT_A && VAULT_B in tokens && tokens[VAULT_B].mint == MINT_B
    ensures ValidWorld(Scene(status, limitA, balanceA, limit, state, tokens))
  {
  }

  lemma PreparedIsValid()
    ensures ValidWorld(Prepared())
  {
    hide ValidWorld;
    SceneIsValid(Active, Limit(100), 10, Limit(100), NO_SWAP, Tokens(10, 0));
  }

  lemma BorrowerKnown()
    ensures BorrowParties(Prepared(), BORROW.accounts)
  {
    hide Tokens;
  }

  lemma BorrowerReady()
    ensures ValidWorld(Prepared())
    ensures BorrowParties(Prepared(), BORROW.accounts) && BorrowTerms(Prepared(), BORROW.accounts, 1)
  {
    hide ValidWorld, BorrowParties;
    PreparedIsValid();
    BorrowerKnown();
  }

  lemma BorrowSucceeds()
    ensures ValidWorld(Prepared())
    ensures BorrowOk(Prepared(), SWAP, 0, BORROW.accounts, 1, Outer(1))
  {
    hide ReservesValid, IntegrationsValid, VaultsOpen, BorrowParties, BorrowTerms;
    BorrowerReady();
    assert RepayFollows(SWAP, 0, INTEGRATION, PAYER_A, PAYER_B, VAULT_A, VAULT_B);
    assert Prepared().reserves[RESERVE_A] == ReserveData(CONTROLLER, MINT_A, VAULT_A, InForce, Limit(100), 10);
  }

  /** At an unmoved clock and balance a sync changes and records nothing. */
  lemma SyncIsQuiet(key: Pubkey, mint: Pubkey, vault: Pubkey, balance: u64)
    ensures var r := ReserveData(CONTROLLER, mint, vault, InForce, Limit(100), balance);
            SyncedReserve(r, NOW, balance) == r && SyncEvents(key, r, balance) == []
  {
  }

  lemma LoanLeaves()
    ensures Transferred(Tokens(10, 0), VAULT_A, PAYER_A, 1, 1) == Tokens(9, 1)
  {
  }

  lemma BorrowLeaves()
    ensures ValidWorld(Prepared()) && BorrowOk(Prepared(), SWAP, 0, BORROW.accounts, 1, Outer(1))
    ensures BorrowPost(Prepared(), SWAP, 0, BORROW.accounts, 1, Outer(1)) == Borrowed(Tokens(9, 1))
  {
    hide ValidWorld, BorrowOk, BorrowPost, SyncedReserve, SyncEvents, Transferred, Tokens;
    BorrowSucceeds();
    SyncIsQuiet(RESERVE_A, MINT_A, VAULT_A, 10);
    SyncIsQuiet(RESERVE_B, MINT_B, VAULT_B, 5);
    LoanLeaves();
    BorrowBalances();
    Processors.BorrowSaves(Prepared(), SWAP, 0, BORROW.accounts, 1, Outer(1));
    var w, w', b := Prepared(), BorrowPost(Prepared(), SWAP, 0, BORROW.accounts, 1, Outer(1)), Borrowed(Tokens(9, 1));
    assert w'.tokens == b.tokens;
    assert w'.reserves == b.reserves;
    assert w'.integrations == b.integrations;
    assert w'.controllers == b.controllers;
    assert w'.log == b.log;
  }

  lemma BorrowBalances()
    ensures VAULT_A in Tokens(10, 0) && VAULT_B in Tokens(10, 0) && PAYER_A in Tokens(10, 0) && PAYER_B in Tokens(10, 0)
    ensures Tokens(10, 0)[VAULT_A].amount == 10 && Tokens(10, 0)[VAULT_B].amount == 5
    ensures Tokens(10, 0)[PAYER_A].amount == 0 && Tokens(10, 0)[PAYER_B].amount == 0
  {
  }

  lemma PayerBalances()
    ensures var tokens := Tokens(9, 2);
            && VAULT_A in tokens && VAULT_B in tokens && PAYER_A in tokens && PAYER_B in tokens
            && tokens[VAULT_A].amount == 9 && tokens[VAULT_B].amount == 5
            && tokens[PAYER_A].amount == 2 && tokens[PAYER_B].amount == 0
  {
  }

  lemma BorrowedIsValid()
    ensures ValidWorld(Borrowed(Tokens(9, 2)))
  {
    hide ValidWorld;
    SceneIsValid(AtomicSwapLock, Limit(99), 9, Limit(99), AtomicSwapState(10, 5, 1, 0, 0), Tokens(9, 2));
  }

  lemma PayerReady()
    ensures ValidWorld(Borrowed(Tokens(9, 2))) && RepayReady(Borrowed(Tokens(9, 2)), REPAY.accounts)
  {
    hide ValidWorld, Tokens;
    BorrowedIsValid();
    PayerBalances();
    var w, a := Borrowed(Tokens(9, 2)), REPAY.accounts;
    assert w.reserves[a[6]] == ReserveData(CONTROLLER, MINT_A, VAULT_A, InForce, Limit(99), 9);
    assert w.reserves[a[9]] == RESERVE_B_DATA;
  }

  lemma PayerSettles()
    ensures ValidWorld(Borrowed(Tokens(9, 2))) && RepayReady(Borrowed(Tokens(9, 2)), REPAY.accounts)
    ensures CanSettle(Borrowed(Tokens(9, 2)), REPAY.accounts, Outer(2))
    ensures Settle(Borrowed(Tokens(9, 2)), REPAY.accounts, Outer(2)) == Settlement(Tokens(11, 0), 2, 0, 0)
  {
    hide ValidWorld, RepayReady;
    PayerReady();
    var w := Borrowed(Tokens(9, 2));
    assert ExcessA(w, REPAY.accounts) == 2;
    assert WithARepaid(w, REPAY.accounts, Outer(2)) == Tokens(11, 0);
    assert Transferred(Tokens(11, 0), PAYER_B, VAULT_B, 0, 0) == Tokens(11, 0);
  }

  lemma RepaySucceeds()
    ensures ValidWorld(Borrowed(Tokens(9, 2))) && RepayOk(Borrowed(Tokens(9, 2)), REPAY.accounts, Outer(2))
  {
    hide ReservesValid, IntegrationsValid, VaultsOpen, RepayReady, CanSettle, Settle;
    PayerReady();
    PayerSettles();
  }

  ghost function Repaid(): World {
    RepaySucceeds();
    RepayPost(Borrowed(Tokens(9, 2)), REPAY.accounts, Outer(2))
  }

  ghost function TheSwap(): Transaction {
    Transaction(SWAP,
                [Invoke(0, BORROW, Outer(1)), Outside(1, Tokens(9, 2)), Invoke(2, REPAY, Outer(2))],
                [Prepared(), Borrowed(Tokens(9, 1)), Borrowed(Tokens(9, 2)), Repaid()])
  }

  lemma VaultsStayOpen(tokens: Ledger, vaultA: u64, payerA: u64)
    ensures VaultsOpen(Prepared().reserves, Tokens(vaultA, payerA))
    ensures VaultsOpen(Borrowed(tokens).reserves, Tokens(vaultA, payerA))
  {
    hide VaultsOpen, Tokens;
    OwnVaultsOpen(Limit(100), 10, vaultA, payerA);
    OwnVaultsOpen(Limit(99), 9, vaultA, payerA);
  }

  lemma BorrowTakes()
    ensures TheSwap().Takes(0)
  {
    hide BorrowOk, BorrowPost, RepayOk, RepayPost, ValidWorld, VaultsOpen, Scene, Borrowed, Prepared, Tokens;
    BorrowLeaves();
    VaultsStayOpen(map[], 0, 0);
  }

  lemma TradeTakes()
    ensures TheSwap().Takes(1)
  {
    hide BorrowOk, BorrowPost, RepayOk, RepayPost, ValidWorld, VaultsOpen, Tokens;
    VaultsStayOpen(Tokens(9, 1), 9, 2);
  }

  lemma RepayTakes()
    ensures TheSwap().Takes(2)
  {
    hide BorrowOk, BorrowPost, RepayOk, RepayPost, ValidWorld, VaultsOpen, Scene, Borrowed, Prepared, Tokens;
    RepaySucceeds();
    VaultsStayOpen(Tokens(9, 2), 0, 0);
  }

  lemma ThreeInOrder(t: Transaction)
    requires |t.ixs| == |t.steps| == 3
    requires forall s :: 0 <= s < 3 ==> t.steps[s].cur == s
    requires forall s :: 0 <= s < 3 && t.OwnAt(s) ==> t.steps[s].Invoke? && t.steps[s].ix == t.ixs[s]
    ensures t.Scheduled()
  {
    assert t.steps[0].cur == 0 && t.steps[1].cur == 1 && t.steps[2].cur == 2;
  }

  /** The swap commits. */
  lemma TheSwapCommits()
    ensures TheSwap().Committed() && TheSwap().BorrowsAt(0) && TheSwap().RepaysAt(2)
  {
    hide ValidWorld, Transaction.Takes, Transaction.Scheduled, RepayOk, RepayPost, Prepared, Borrowed, Tokens;
    BorrowTakes();
    TradeTakes();
    RepayTakes();
    ThreeInOrder(TheSwap());
  }

  lemma NetOfTwo(e: AccountingEvent, f: AccountingEvent, s: Subject)
    ensures Net([e, f], s) == (if e.subject == s then e.Signed() else 0) + (if f.subject == s then f.Signed() else 0)
  {
    assert [e, f][..1] == [e] && [e][..0] == [];
    assert Net([], s) == 0;
  }

  /** Vault A ends with one token more than it began with, and the log does not change its sum. */
  lemma RepayLeaves()
    ensures var w := Repaid();
            && RESERVE_A in w.reserves && w.reserves[RESERVE_A].lastBalance == 11
            && Net(LOG, OfReserve(RESERVE_A)) == 10 && Net(w.log, OfReserve(RESERVE_A)) == 10
  {
    hide ValidWorld, RepayReady, CanSettle, Settle, RepayPost;
    RepaySucceeds();
    PayerSettles();
    Processors.RepaySaves(Borrowed(Tokens(9, 2)), REPAY.accounts, Outer(2));
    NetOfTwo(LOG[0], LOG[1], OfReserve(RESERVE_A));
    var out := AccountingEvent(CONTROLLER, OfReserve(RESERVE_A), MINT_A, Swap, 0, Debit);
    var into := AccountingEvent(CONTROLLER, OfReserve(RESERVE_B), MINT_B, Swap, 0, Credit);
    assert Repaid().log == LOG + [out, into];
    NetAppend(LOG, [out, into], OfReserve(RESERVE_A));
    NetOfTwo(out, into, OfReserve(RESERVE_A));
  }

  /** From the empty world on: everything is set up, and then the swap runs. */
  ghost function Worlds(): seq<World> {
    [Nothing(), Prepared(), Repaid()]
  }

  ghost function Events(): seq<History.Event> {
    [History.Executed(TheSetup()), History.Executed(TheSwap())]
  }

  /** One borrowed, two returned. In a history from the empty world on, the log matches the balance
      before the swap and is one short after it. */
  lemma SurplusUnrecorded()
    ensures History.IsHistory(Worlds(), Events())
    ensures var w := Worlds()[1];
            && RESERVE_A in w.reserves && w.reserves[RESERVE_A].lastBalance == 10
            && Net(w.log, OfReserve(RESERVE_A)) == 10
    ensures var w := Worlds()[2];
            && RESERVE_A in w.reserves && w.reserves[RESERVE_A].lastBalance == 11
            && Net(w.log, OfReserve(RESERVE_A)) == 10
  {
    hide Transaction.Committed, Borrowed, Tokens, Net;
    TheSetupCommits();
    TheSwapCommits();
    RepayLeaves();
  }
}
