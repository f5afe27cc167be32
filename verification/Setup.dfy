/**
 A controller set up from nothing, in one transaction of seven instructions: the controller, a permission
 for its relayer, two reserves, an oracle and its first price, and a swap integration between the reserves.
 */
module Setup {
  import opened Words
  import opened RateLimit
  import opened Accounts
  import opened Introspection
  import opened Handlers
  import opened Machine
  import opened Transactions
  import Klend
  import History

  const CONTROLLER := Pubkey(10)
  const AUTHORITY := Pubkey(11)
  const MANAGER_PERMISSION := Pubkey(12)
  const PERMISSION := Pubkey(13)
  const RELAYER := Pubkey(14)
  const INTEGRATION := Pubkey(15)
  const RESERVE_A := Pubkey(16)
  const VAULT_A := Pubkey(17)
  const MINT_A := Pubkey(18)
  const RESERVE_B := Pubkey(19)
  const VAULT_B := Pubkey(20)
  const MINT_B := Pubkey(21)
  const ORACLE := Pubkey(22)
  const PAYER_A := Pubkey(23)
  const PAYER_B := Pubkey(24)
  const FOREIGN := Pubkey(25)

  const NOW := Clock(0, 1)

  function Limit(available: u64): Bucket {
    Bucket(0, 100, available, 0, NOW.ts, NOW.slot)
  }

  function Tokens(vaultA: u64, payerA: u64): Ledger {
    map[VAULT_A := TokenAccount(MINT_A, vaultA), VAULT_B := TokenAccount(MINT_B, 5),
        PAYER_A := TokenAccount(MINT_A, payerA), PAYER_B := TokenAccount(MINT_B, 0)]
  }

  /** What the outside contributes: of a transfer `received` arrive, and the price feed says 1. */
  function Outer(received: u64): Environment {
    var empty := Klend.Position(0, Klend.KaminoReserve(0, 0, 0, 0, 0, 0));
    var market := LendingMarket(Closed, FOREIGN, FOREIGN, FOREIGN, {}, NoFarm, false);
    Environment(received, 0, Tokens(0, 0), empty, empty, market, 1, 1)
  }

  const MANAGER :=
    PermissionData(CONTROLLER, KEEL_DEPLOYER_MSIG, InForce, NO_CAPABILITIES.(managePermissions := true))
  const RIGHTS := NO_CAPABILITIES.(executeSwap := true, manageReservesAndIntegrations := true)
  const CONFIG := AtomicSwapConfig(MINT_A, MINT_B, ORACLE, 0, 100, 0, 6, 6, false)

  function ReserveA(limit: Bucket, balance: u64): ReserveData {
    ReserveData(CONTROLLER, MINT_A, VAULT_A, InForce, limit, balance)
  }

  const RESERVE_B_DATA := ReserveData(CONTROLLER, MINT_B, VAULT_B, InForce, Limit(100), 5)

  const LOG := [AccountingEvent(CONTROLLER, OfReserve(RESERVE_A), MINT_A, Sync, 10, Credit),
                AccountingEvent(CONTROLLER, OfReserve(RESERVE_B), MINT_B, Sync, 5, Credit)]

  /** The world once everything is set up; what a swap changes is given. */
  function Scene(status: ControllerStatus, limitA: Bucket, balanceA: u64, limit: Bucket, state: IntegrationState,
                 tokens: Ledger): World
  {
    World(
      map[CONTROLLER := ControllerData(1, status, AUTHORITY)],
      map[MANAGER_PERMISSION := MANAGER, PERMISSION := PermissionData(CONTROLLER, RELAYER, InForce, RIGHTS)],
      map[RESERVE_A := ReserveA(limitA, balanceA), RESERVE_B := RESERVE_B_DATA],
      map[INTEGRATION := IntegrationData(CONTROLLER, "", 0, InForce, limit, CONFIG, state, false)],
      map[ORACLE := OracleData(CONTROLLER, RELAYER, MINT_A, MINT_B, FOREIGN, ORACLE_PRECISION, 1, 1)],
      tokens, NOW, LOG, [])
  }

  function Prepared(): World {
    Scene(Active, Limit(100), 10, Limit(100), NO_SWAP, Tokens(10, 0))
  }

  // ---------- the worlds on the way ----------

  function Nothing(): World {
    World(map[], map[], map[], map[], map[], Tokens(10, 0), NOW, [], [])
  }

  function Controlled(): World {
    Nothing().(controllers := map[CONTROLLER := ControllerData(1, Active, AUTHORITY)],
               permissions := map[MANAGER_PERMISSION := MANAGER])
  }

  function Permitted(): World {
    Controlled().(permissions := Prepared().permissions)
  }

  function FirstReserve(): World {
    Permitted().(reserves := map[RESERVE_A := ReserveA(Limit(100), 10)], log := LOG[..1])
  }

  function BothReserves(): World {
    Permitted().(reserves := Prepared().reserves, log := LOG)
  }

  function Unquoted(): World {
    BothReserves().(oracles :=
      map[ORACLE := OracleData(CONTROLLER, RELAYER, MINT_A, MINT_B, FOREIGN, ORACLE_PRECISION, 0, 0)])
  }

  function Quoted(): World {
    BothReserves().(oracles := Prepared().oracles)
  }

  // ---------- the instructions ----------

  const INIT_CONTROLLER := Instruction(PROGRAM_ID, Command(1, InitializeController(1, Active)),
    [FOREIGN, KEEL_DEPLOYER_MSIG, CONTROLLER, AUTHORITY, MANAGER_PERMISSION, PROGRAM_ID, FOREIGN])
  const GRANT := Instruction(PROGRAM_ID, Command(3, Args.ManagePermission(InForce, RIGHTS)),
    [FOREIGN, CONTROLLER, AUTHORITY, KEEL_DEPLOYER_MSIG, MANAGER_PERMISSION, RELAYER, PERMISSION, PROGRAM_ID, FOREIGN])

  function InitReserve(reserve: Pubkey, mint: Pubkey, vault: Pubkey): Instruction {
    Instruction(PROGRAM_ID, Command(4, InitializeReserve(InForce, 0, 100)),
      [FOREIGN, CONTROLLER, AUTHORITY, RELAYER, PERMISSION, reserve, mint, vault, FOREIGN, FOREIGN, PROGRAM_ID,
       FOREIGN])
  }

  const INIT_ORACLE := Instruction(PROGRAM_ID, Command(12, InitializeOracle(FOREIGN, MINT_A, MINT_B)),
    [FOREIGN, CONTROLLER, AUTHORITY, RELAYER, FOREIGN, ORACLE, FOREIGN])
  const REFRESH := Instruction(PROGRAM_ID, Command(14, NoArgs), [FOREIGN, ORACLE])
  const INIT_INTEGRATION := Instruction(PROGRAM_ID,
    Command(6, InitializeIntegration(0, InForce, "", CONFIG, 0, 100, false)),
    [FOREIGN, CONTROLLER, AUTHORITY, RELAYER, PERMISSION, INTEGRATION, PROGRAM_ID, FOREIGN])

  const INSTRUCTIONS := [INIT_CONTROLLER, GRANT, InitReserve(RESERVE_A, MINT_A, VAULT_A),
                         InitReserve(RESERVE_B, MINT_B, VAULT_B), INIT_ORACLE, REFRESH, INIT_INTEGRATION]

  function CallAt(k: nat): Call
    requires k < 7
  {
    Call(INSTRUCTIONS, k, INSTRUCTIONS[k], Outer(0))
  }

  // ---------- each succeeds ----------

  lemma ControllerStep()
    requires Ready(Nothing(), CallAt(0))
    ensures Executes(Nothing(), CallAt(0), Controlled())
  {
    hide ValidWorld;
    var c := CallAt(0);
    assert InitializeControllerOk(Nothing(), c.ix.accounts, c.ix.data.args);
    assert InitializeControllerStep(Nothing(), c, Controlled());
  }

  lemma GrantStep()
    requires Ready(Controlled(), CallAt(1))
    ensures Executes(Controlled(), CallAt(1), Permitted())
  {
    hide ValidWorld;
    var c := CallAt(1);
    assert ManagePermissionOk(Controlled(), c.ix.accounts, c.ix.data.args);
    assert ManagePermissionStep(Controlled(), c, Permitted());
  }

  /** The vault's balance comes in as a first credit, and the limit is already full. */
  lemma FirstSync(key: Pubkey, mint: Pubkey, vault: Pubkey, balance: u64)
    requires balance > 0
    ensures var r := ReserveData(CONTROLLER, mint, vault, InForce, Limit(100), 0);
            && SyncedReserve(r, NOW, balance) == r.(lastBalance := balance)
            && SyncEvents(key, r, balance) == [AccountingEvent(CONTROLLER, OfReserve(key), mint, Sync, balance, Credit)]
  {
  }

  lemma ReservesAllowed()
    ensures InitializeReserveOk(Permitted(), CallAt(2).ix.accounts, CallAt(2).ix.data.args)
    ensures InitializeReserveOk(FirstReserve(), CallAt(3).ix.accounts, CallAt(3).ix.data.args)
  {
  }

  lemma FirstReserveStep()
    requires Ready(Permitted(), CallAt(2))
    ensures Executes(Permitted(), CallAt(2), FirstReserve())
  {
    hide ValidWorld, SyncedReserve, SyncEvents, InitializeReserveOk;
    ReservesAllowed();
    FirstSync(RESERVE_A, MINT_A, VAULT_A, 10);
    var w, a := Permitted(), CallAt(2).ix.accounts;
    assert WithAta(w.tokens, VAULT_A, MINT_A) == w.tokens;
    assert InitializeReservePost(w, a, CallAt(2).ix.data.args).reserves == FirstReserve().reserves;
    assert InitializeReserveStep(w, CallAt(2), FirstReserve());
  }

  lemma SecondReserveStep()
    requires Ready(FirstReserve(), CallAt(3))
    ensures Executes(FirstReserve(), CallAt(3), BothReserves())
  {
    hide ValidWorld, SyncedReserve, SyncEvents, InitializeReserveOk;
    ReservesAllowed();
    FirstSync(RESERVE_B, MINT_B, VAULT_B, 5);
    var w, a := FirstReserve(), CallAt(3).ix.accounts;
    assert WithAta(w.tokens, VAULT_B, MINT_B) == w.tokens;
    assert InitializeReservePost(w, a, CallAt(3).ix.data.args).reserves == BothReserves().reserves;
    assert InitializeReserveStep(w, CallAt(3), BothReserves());
  }

  lemma OracleStep()
    requires Ready(BothReserves(), CallAt(4))
    ensures Executes(BothReserves(), CallAt(4), Unquoted())
  {
    hide ValidWorld;
    var c := CallAt(4);
    assert InitializeOracleOk(BothReserves(), c.ix.accounts, c.ix.data.args);
    assert InitializeOracleStep(BothReserves(), c, Unquoted());
  }

  lemma RefreshStep()
    requires Ready(Unquoted(), CallAt(5))
    ensures Executes(Unquoted(), CallAt(5), Quoted())
  {
    hide ValidWorld;
    var c := CallAt(5);
    assert RefreshOracleOk(Unquoted(), c.ix.accounts);
    assert RefreshOracleStep(Unquoted(), c, Quoted());
  }

  lemma IntegrationAllowed()
    ensures InitializeIntegrationOk(Quoted(), CallAt(6).ix.accounts, CallAt(6).ix.data.args)
  {
  }

  lemma IntegrationStep()
    requires Ready(Quoted(), CallAt(6))
    ensures Executes(Quoted(), CallAt(6), Prepared())
  {
    hide ValidWorld, InitializeIntegrationOk, Tokens;
    IntegrationAllowed();
    assert InitializeIntegrationStep(Quoted(), CallAt(6), Prepared());
  }

  // ---------- and so does the transaction ----------

  /** A transaction that invokes nothing but its own instructions. */
  function Direct(ixs: seq<Instruction>, env: Environment, worlds: seq<World>): Transaction {
    Transaction(ixs, seq(|ixs|, k requires 0 <= k < |ixs| => Invoke(k, ixs[k], env)), worlds)
  }

  lemma DirectScheduled(ixs: seq<Instruction>, env: Environment, worlds: seq<World>)
    ensures Direct(ixs, env, worlds).Scheduled()
  {
    var t := Direct(ixs, env, worlds);
    forall j: nat | t.OwnAt(j) ensures exists s :: 0 <= s < |t.steps| && t.steps[s].cur == j {
      assert t.steps[j].cur == j;
    }
  }

  function TheSetup(): Transaction {
    Direct(INSTRUCTIONS, Outer(0),
           [Nothing(), Controlled(), Permitted(), FirstReserve(), BothReserves(), Unquoted(), Quoted(), Prepared()])
  }

  lemma FirstCallReady()
    ensures Ready(Nothing(), CallAt(0))
  {
  }

  lemma NextCallReady(w: World, k: nat, w': World)
    requires k < 6 && Ready(w, CallAt(k)) && Executes(w, CallAt(k), w') && VaultsOpen(w'.reserves, Tokens(0, 0))
    ensures Ready(w', CallAt(k + 1))
  {
    hide ValidWorld, Executes, Effects, VaultsOpen;
    ExecutesOk(w, CallAt(k), w');
  }

  lemma OwnVaultsOpen(limit: Bucket, balance: u64, vaultA: u64, payerA: u64)
    ensures VaultsOpen(map[RESERVE_A := ReserveA(limit, balance)], Tokens(vaultA, payerA))
    ensures VaultsOpen(map[RESERVE_A := ReserveA(limit, balance), RESERVE_B := RESERVE_B_DATA], Tokens(vaultA, payerA))
  {
  }

  lemma VaultsOpenThroughout(k: nat)
    requires k < 7
    ensures VaultsOpen(TheSetup().worlds[k].reserves, Tokens(0, 0))
  {
    hide Tokens;
    OwnVaultsOpen(Limit(100), 10, 0, 0);
  }

  lemma {:induction false} SetupTakes(k: nat)
    requires k < 7
    ensures Ready(TheSetup().worlds[k], CallAt(k))
    ensures Executes(TheSetup().worlds[k], CallAt(k), TheSetup().worlds[k + 1])
  {
    hide ValidWorld, VaultsOpen, Executes, Nothing, Controlled, Permitted, FirstReserve, BothReserves, Unquoted, Quoted,
      Prepared, CallAt, Ready;
    if k == 0 {
      FirstCallReady();
    } else {
      SetupTakes(k - 1);
      VaultsOpenThroughout(k);
      NextCallReady(TheSetup().worlds[k - 1], k - 1, TheSetup().worlds[k]);
    }
    match k
    case 0 => ControllerStep();
    case 1 => GrantStep();
    case 2 => FirstReserveStep();
    case 3 => SecondReserveStep();
    case 4 => OracleStep();
    case 5 => RefreshStep();
    case 6 => IntegrationStep();
  }

  /** From nothing, everything a swap needs is set up in one transaction. */
  lemma TheSetupCommits()
    ensures TheSetup().Committed() && History.Genesis(TheSetup().worlds[0]) && TheSetup().worlds[7] == Prepared()
  {
    hide ValidWorld, VaultsOpen, Executes, Controlled, Permitted, FirstReserve, BothReserves, Unquoted, Quoted,
      Prepared, Ready, Transaction.Scheduled;
    var t := TheSetup();
    DirectScheduled(INSTRUCTIONS, Outer(0), t.worlds);
    forall k | 0 <= k < |t.steps| ensures t.Takes(k) {
      SetupTakes(k);
      assert t.CallAt(k) == CallAt(k);
    }
  }
}
