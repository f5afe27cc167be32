/**
 Committed transactions. The top-level instructions run in order; each of this program's runs once,
 as itself, and while another program's runs that program may invoke this one any number of times,
 with any instruction, and outsiders may move any token balance. Nothing failed: every step succeeded.
 */
module Transactions {
  import opened Words
  import opened Accounts
  import opened Introspection
  import opened Handlers
  import opened Machine

  /** `cur` is the index of the top-level instruction being executed. */
  datatype Step =
    | Invoke(cur: nat, ix: Instruction, env: Environment)
    | Outside(cur: nat, tokens: Ledger)

  /** `worlds[s]` is the world before step `s`, the last one the world that is committed. */
  datatype Transaction = Transaction(ixs: seq<Instruction>, steps: seq<Step>, worlds: seq<World>)
  {
    ghost predicate Scheduled() {
      && (forall s :: 0 <= s < |steps| ==> steps[s].cur < |ixs|)
      && (forall s, t :: 0 <= s <= t < |steps| ==> steps[s].cur <= steps[t].cur)
      && (forall s :: 0 <= s < |steps| && OwnAt(steps[s].cur) ==> steps[s].Invoke? && steps[s].ix == ixs[steps[s].cur])
      && (forall s, t :: 0 <= s < t < |steps| && OwnAt(steps[s].cur) ==> steps[s].cur != steps[t].cur)
      && (forall j :: OwnAt(j) ==> exists s :: 0 <= s < |steps| && steps[s].cur == j)
    }

    predicate OwnAt(j: nat) {
      j < |ixs| && ixs[j].program == PROGRAM_ID
    }

    function CallAt(s: nat): Call
      requires s < |steps| && steps[s].Invoke?
    {
      Call(ixs, steps[s].cur, steps[s].ix, steps[s].env)
    }

    ghost predicate Takes(s: nat)
      requires s < |steps| && |worlds| == |steps| + 1
    {
      var w, w' := worlds[s], worlds[s + 1];
      match steps[s]
      case Invoke(_, _, _) => Ready(w, CallAt(s)) && Executes(w, CallAt(s), w')
      case Outside(_, tokens) => VaultsOpen(w.reserves, tokens) && w' == w.(tokens := tokens)
    }

    ghost predicate Committed() {
      && |worlds| == |steps| + 1
      && Scheduled()
      && forall s :: 0 <= s < |steps| ==> Takes(s)
    }

    predicate Calls(s: int) {
      0 <= s < |steps| && steps[s].Invoke?
    }

    predicate BorrowsAt(s: int) {
      Calls(s) && CallAt(s).IsBorrow()
    }

    predicate RepaysAt(s: int) {
      Calls(s) && CallAt(s).IsRepay()
    }

    predicate LzPushesAt(s: int) {
      Calls(s) && CallAt(s).IsLzPush()
    }
  }

  lemma StepOk(t: Transaction, s: nat)
    requires t.Committed() && s < |t.steps| && ValidWorld(t.worlds[s])
    ensures ValidWorld(t.worlds[s + 1]) && t.worlds[s + 1].clock == t.worlds[s].clock
    ensures t.Calls(s) ==> Effects(t.worlds[s], t.worlds[s + 1], t.CallAt(s))
    ensures t.Calls(s) ==> t.CallAt(s).cur < |t.ixs| && Gated(t.worlds[s], t.CallAt(s), t.worlds[s + 1])
    ensures !t.Calls(s) ==> t.worlds[s + 1] == t.worlds[s].(tokens := t.worlds[s + 1].tokens)
  {
    hide ValidWorld, Executes, Effects, Gated, VaultsOpen, Transaction.Scheduled;
    assert t.Takes(s);
    if t.Calls(s) {
      ExecutesOk(t.worlds[s], t.CallAt(s), t.worlds[s + 1]);
      ExecutesGated(t.worlds[s], t.CallAt(s), t.worlds[s + 1]);
      assert Untouched(t.worlds[s], t.worlds[s + 1], t.CallAt(s)) by {
        EffectsUntouched(t.worlds[s], t.worlds[s + 1], t.CallAt(s));
      }
    } else {
      TokensMoved(t.worlds[s], t.worlds[s + 1].tokens);
    }
  }

  lemma TokensMoved(w: World, tokens: Ledger)
    requires ValidWorld(w) && VaultsOpen(w.reserves, tokens)
    ensures ValidWorld(w.(tokens := tokens))
  {
  }

  /** A committed transaction takes a valid world to a valid world, at one clock. */
  lemma {:induction false} WorldsStayValid(t: Transaction, s: nat)
    requires t.Committed() && s <= |t.steps| && ValidWorld(t.worlds[0])
    ensures ValidWorld(t.worlds[s]) && t.worlds[s].clock == t.worlds[0].clock
  {
    if s > 0 {
      WorldsStayValid(t, s - 1);
      StepOk(t, s - 1);
    }
  }
}
