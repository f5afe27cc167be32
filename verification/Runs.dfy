/** Runs: any sequence of calls, of balance changes by outsiders, and of the passing of time. */
module Runs {
  import opened RateLimit
  import opened Accounts
  import opened Machine
  import opened Transactions

  datatype Move =
    | Did(call: Call)
    | Outsiders(tokens: Ledger)
    | Passed(clock: Clock)

  ghost predicate Leads(w: World, m: Move, w': World) {
    match m
    case Did(c) => Ready(w, c) && Executes(w, c, w')
    case Outsiders(tokens) => VaultsOpen(w.reserves, tokens) && w' == w.(tokens := tokens)
    case Passed(clock) => w.clock.ts <= clock.ts && w.clock.slot <= clock.slot && w' == w.(clock := clock)
  }

  ghost predicate IsRun(worlds: seq<World>, moves: seq<Move>) {
    && |worlds| == |moves| + 1
    && forall n :: 0 <= n < |moves| ==> Leads(worlds[n], moves[n], worlds[n + 1])
  }

  function MoveOf(t: Transaction, s: nat): Move
    requires s < |t.steps|
  {
    if t.steps[s].Invoke? then Did(t.CallAt(s)) else Outsiders(t.steps[s].tokens)
  }

  /** What holds of every run holds inside every committed transaction. */
  lemma TransactionIsRun(t: Transaction)
    requires t.Committed()
    ensures IsRun(t.worlds, seq(|t.steps|, s requires 0 <= s < |t.steps| => MoveOf(t, s)))
  {
    hide Executes, ValidWorld, Transaction.Scheduled;
    forall s | 0 <= s < |t.steps| ensures Leads(t.worlds[s], MoveOf(t, s), t.worlds[s + 1]) {
      assert t.Takes(s);
    }
  }

  lemma ClockAdvances(w: World, clock: Clock)
    requires ValidWorld(w) && w.clock.ts <= clock.ts && w.clock.slot <= clock.slot
    ensures ValidWorld(w.(clock := clock))
  {
  }
}
