/**
 What an instruction can see of the transaction it runs in: the top-level instructions and the index
 of the one being executed. An instruction reached through another program sees that program's index.
 */
module Introspection {
  import opened Words
  import opened Accounts
  import opened Klend

  const PUSH_DISC: nat := 10
  const PULL_DISC: nat := 11
  const ATOMIC_SWAP_BORROW_DISC: nat := 15
  const ATOMIC_SWAP_REPAY_DISC: nat := 16
  const RESET_LZ_PUSH_IN_FLIGHT_DISC: nat := 17

  const REPAY_INTEGRATION_INDEX: nat := 5
  const REPAY_PAYER_ACCOUNT_A_INDEX: nat := 13
  const REPAY_PAYER_ACCOUNT_B_INDEX: nat := 14
  const RESET_INTEGRATION_INDEX: nat := 1

  datatype Args =
    | NoArgs
    | InitializeController(id: nat, initialStatus: ControllerStatus)
    | ManageController(status: ControllerStatus)
    | ManagePermission(permissionStatus: AccountStatus, granted: Capabilities)
    | InitializeReserve(reserveStatus: AccountStatus, slope: u64, max: u64)
    | ManageReserve(newReserveStatus: Option<AccountStatus>, newSlope: Option<u64>, newMax: Option<u64>)
    | InitializeIntegration(hash: nat, integrationStatus: AccountStatus, description: string,
                            config: IntegrationConfig, slope: u64, max: u64, permitLiquidation: bool)
    | ManageIntegration(newStatus: Option<AccountStatus>, newDescription: Option<string>,
                        newSlope: Option<u64>, newMax: Option<u64>)
    | InitializeOracle(nonce: Pubkey, baseMint: Pubkey, quoteMint: Pubkey)
    | UpdateOracle(replaceFeed: bool)
    | SplTokenExternal(amount: u64)
    | LzBridge(amount: u64)
    | Kamino(amount: u64)
    | Borrow(amount: u64)

  /** Instruction data: nothing, a discriminator byte and arguments of this program, the parameters of
      an OFT `send`, or something else. */
  datatype IxData =
    | Empty
    | Command(disc: nat, args: Args)
    | OftSend(dstEid: nat, to: Pubkey, amountLd: u64)
    | Other

  datatype Instruction = Instruction(program: Pubkey, data: IxData, accounts: seq<Pubkey>)

  predicate IsOwn(ix: Instruction, disc: nat) {
    ix.program == PROGRAM_ID && ix.data.Command? && ix.data.disc == disc
  }

  // ---------- atomic swap ----------

  /** `ix` is the repay of this integration, paid from these accounts, which are not the vaults. */
  predicate IsRepayOf(ix: Instruction, integration: Pubkey, recipientA: Pubkey, recipientB: Pubkey,
                      vaultA: Pubkey, vaultB: Pubkey)
  {
    && IsOwn(ix, ATOMIC_SWAP_REPAY_DISC)
    && |ix.accounts| > REPAY_PAYER_ACCOUNT_B_INDEX
    && ix.accounts[REPAY_INTEGRATION_INDEX] == integration
    && ix.accounts[REPAY_PAYER_ACCOUNT_A_INDEX] == recipientA
    && ix.accounts[REPAY_PAYER_ACCOUNT_B_INDEX] == recipientB
    && recipientA != vaultA && recipientB != vaultB
  }

  /** The borrow at index `cur` is a top-level one, no other top-level instruction of this program
      comes between it and the last, and the last is the repay of the same integration, paid from the
      accounts the borrow pays out to. */
  ghost predicate RepayFollows(ixs: seq<Instruction>, cur: nat, integration: Pubkey,
                               recipientA: Pubkey, recipientB: Pubkey, vaultA: Pubkey, vaultB: Pubkey)
  {
    && cur + 1 < |ixs|
    && IsOwn(ixs[cur], ATOMIC_SWAP_BORROW_DISC)
    && (forall i :: cur < i < |ixs| - 1 ==> ixs[i].program != PROGRAM_ID)
    && IsRepayOf(ixs[|ixs| - 1], integration, recipientA, recipientB, vaultA, vaultB)
  }

  /** Success, or the error the program returns; `Panicked` stands for a failed `unwrap` or an index out of range. */
  datatype Outcome =
    | Ok
    | InvalidInstructions | UnauthorizedAction | InvalidInstructionData | InvalidAccountData
    | InvalidInstructionIndex | IncorrectProgramId | NotEnoughAccountKeys | Panicked
    | ControllerStatusDoesNotPermitAction | PermissionStatusDoesNotPermitAction
    | IntegrationStatusDoesNotPermitAction | ReserveStatusDoesNotPermitAction
    | InvalidControllerAuthority | InvalidPermission | FrozenController | AtomicSwapLocked
    | ControllerDoesNotMatchAccountData | SwapHasStarted | SwapNotStarted | IntegrationHasExpired
    | InvalidSwapState | StaleOraclePrice | SlippageExceeded | InsufficientFunds | InvalidArgument
    | IncorrectAuthority | Invalid | RateLimited | LZPushInFlight | InvalidPda | TokenProgramError

  method VerifyRepayIxInTx(ixs: seq<Instruction>, cur: nat, integration: Pubkey,
                           recipientA: Pubkey, recipientB: Pubkey, vaultA: Pubkey, vaultB: Pubkey)
    returns (r: Outcome)
    requires cur < |ixs|
    ensures r.Ok? <==> RepayFollows(ixs, cur, integration, recipientA, recipientB, vaultA, vaultB)
    ensures r.Ok? ==> cur < |ixs| - 1 && forall k :: cur < k < |ixs| - 1 ==> ixs[k].program != PROGRAM_ID
    ensures r.Ok? ==>
      var repay := ixs[|ixs| - 1];
      && repay.program == PROGRAM_ID && repay.data.Command? && repay.data.disc == 16 && |repay.accounts| >= 15
      && repay.accounts[5] == integration && repay.accounts[13] == recipientA && repay.accounts[14] == recipientB
  {
    var last := |ixs| - 1;
    if cur >= last { return UnauthorizedAction; }
    if ixs[cur].program != PROGRAM_ID { return InvalidInstructions; }
    if !ixs[cur].data.Command? { return InvalidInstructionData; }
    if ixs[cur].data.disc != ATOMIC_SWAP_BORROW_DISC { return InvalidInstructions; }
    for i := cur + 1 to last
      invariant forall j :: cur < j < i ==> ixs[j].program != PROGRAM_ID
    {
      if ixs[i].program == PROGRAM_ID { return InvalidInstructions; }
    }
    r := VerifyLastIx(ixs[last], integration, recipientA, recipientB, vaultA, vaultB);
  }

  method VerifyLastIx(ix: Instruction, integration: Pubkey,
                      recipientA: Pubkey, recipientB: Pubkey, vaultA: Pubkey, vaultB: Pubkey)
    returns (r: Outcome)
    ensures r.Ok? <==> IsRepayOf(ix, integration, recipientA, recipientB, vaultA, vaultB)
    ensures r.Ok? ==>
      && |ix.accounts| >= 15 && ix.accounts[5] == integration
      && ix.accounts[13] == recipientA != vaultA && ix.accounts[14] == recipientB != vaultB
  {
    if ix.program != PROGRAM_ID { return InvalidInstructions; }
    if !ix.data.Command? { return InvalidInstructionData; }
    if ix.data.disc != ATOMIC_SWAP_REPAY_DISC { return InvalidInstructions; }
    if |ix.accounts| <= REPAY_INTEGRATION_INDEX { return InvalidArgument; }
    if ix.accounts[REPAY_INTEGRATION_INDEX] != integration { return InvalidInstructions; }
    if |ix.accounts| <= REPAY_PAYER_ACCOUNT_B_INDEX { return InvalidArgument; }
    var payerA, payerB := ix.accounts[REPAY_PAYER_ACCOUNT_A_INDEX], ix.accounts[REPAY_PAYER_ACCOUNT_B_INDEX];
    if payerA != recipientA { return InvalidAccountData; }
    if payerB != recipientB { return InvalidAccountData; }
    if payerA == vaultA || payerB == vaultB { return InvalidAccountData; }
    return Ok;
  }

  // ---------- LayerZero bridge ----------

  /** The current instruction is third from the end, followed by an OFT send that carries this amount from
      this account to the configured destination, and by this program's reset for the same integration.
      The current instruction itself may be another program's that invokes the push. */
  ghost predicate SendFollows(ixs: seq<Instruction>, cur: nat, authority: Pubkey, authorityTokenAccount: Pubkey,
                              mint: Pubkey, tokenProgram: Pubkey, config: IntegrationConfig,
                              integration: Pubkey, amount: u64)
    requires config.LzBridgeConfig?
  {
    && cur + 3 == |ixs|
    && IsOwn(ixs[cur + 2], RESET_LZ_PUSH_IN_FLIGHT_DISC)
    && |ixs[cur + 2].accounts| > RESET_INTEGRATION_INDEX
    && ixs[cur + 2].accounts[RESET_INTEGRATION_INDEX] == integration
    && ixs[cur + 1].program == config.program
    && ixs[cur + 1].data == OftSend(config.destinationEid, config.destinationAddress, amount)
    && |ixs[cur + 1].accounts| >= 7
    && ixs[cur + 1].accounts[..7] == [authority, config.peerConfig, config.oftStore, authorityTokenAccount,
                                      config.oftTokenEscrow, mint, tokenProgram]
  }

  method VerifySendIxInTx(ixs: seq<Instruction>, cur: nat, authority: Pubkey, authorityTokenAccount: Pubkey,
                          mint: Pubkey, tokenProgram: Pubkey, config: IntegrationConfig,
                          integration: Pubkey, amount: u64)
    returns (r: Outcome)
    requires cur < |ixs| && config.LzBridgeConfig?
    ensures r.Ok? <==>
      SendFollows(ixs, cur, authority, authorityTokenAccount, mint, tokenProgram, config, integration, amount)
    ensures r.Ok? ==>
      && cur + 3 == |ixs| && ixs[|ixs| - 2].program == config.program && ixs[|ixs| - 2].data.OftSend?
      && var send := ixs[|ixs| - 2].data;
      send.amountLd == amount && send.to == config.destinationAddress && send.dstEid == config.destinationEid
  {
    if |ixs| < 3 { return InvalidInstructions; }
    if cur != |ixs| - 3 { return InvalidInstructionIndex; }
    var reset := ixs[|ixs| - 1];
    if reset.program != PROGRAM_ID { return InvalidInstructions; }
    if reset.data.Empty? { return Panicked; }
    if !reset.data.Command? || reset.data.disc != RESET_LZ_PUSH_IN_FLIGHT_DISC { return InvalidInstructions; }
    if |reset.accounts| <= RESET_INTEGRATION_INDEX { return InvalidArgument; }
    if reset.accounts[RESET_INTEGRATION_INDEX] != integration { return InvalidInstructions; }
    var send := ixs[|ixs| - 2];
    if send.program != config.program { return InvalidInstructions; }
    if !send.data.OftSend? { return InvalidAccountData; }
    if |send.accounts| < 7 { return InvalidArgument; }
    if send.accounts[0] != authority || send.accounts[1] != config.peerConfig
       || send.accounts[2] != config.oftStore || send.accounts[3] != authorityTokenAccount
       || send.accounts[4] != config.oftTokenEscrow || send.accounts[5] != mint
       || send.accounts[6] != tokenProgram
    {
      return InvalidInstructions;
    }
    assert send.accounts[..7] == [authority, config.peerConfig, config.oftStore, authorityTokenAccount,
                                  config.oftTokenEscrow, mint, tokenProgram];
    if send.data.amountLd != amount || send.data.to != config.destinationAddress
       || send.data.dstEid != config.destinationEid
    {
      return InvalidInstructions;
    }
    return Ok;
  }

  /** The reset is the last instruction and a top-level one. */
  predicate IsTopLevelReset(ixs: seq<Instruction>, cur: nat) {
    cur + 1 == |ixs| && IsOwn(ixs[cur], RESET_LZ_PUSH_IN_FLIGHT_DISC)
  }

  method ValidateInstruction(ixs: seq<Instruction>, cur: nat) returns (r: Outcome)
    requires cur < |ixs|
    ensures r.Ok? <==> IsTopLevelReset(ixs, cur)
  {
    if cur != |ixs| - 1 { return InvalidInstructionIndex; }
    if ixs[cur].program != PROGRAM_ID { return IncorrectProgramId; }
    if ixs[cur].data.Empty? { return Panicked; }
    if !ixs[cur].data.Command? || ixs[cur].data.disc != RESET_LZ_PUSH_IN_FLIGHT_DISC { return InvalidInstructions; }
    return Ok;
  }
}
