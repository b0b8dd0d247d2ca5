/**
  The three instruction builders of the lock client. Each derives the addresses the
  lock program expects, lists them in the program's order with their signer and
  writable flags, and attaches the serialized payload.

  Address derivation is not modelled: `Derivation` carries two arbitrary functions
  standing for `Pubkey::find_program_address` and
  `get_associated_token_address`, so every fact below holds for any derivation.
  The keypair file is read outside the model; the builders receive its outcome.
*/
module LockInstructions {
  import opened Wrappers
  import opened Borsh
  import opened LockUtils

  const METADATA_PREFIX: string := "metadata"

  /**
    One entry of an instruction's account list. `AccountMeta::new(k, s)` is
    `AccountMeta(k, s, true)` and `AccountMeta::new_readonly(k, s)` is `AccountMeta(k, s, false)`.
  */
  datatype AccountMeta = AccountMeta(pubkey: Pubkey, isSigner: bool, isWritable: bool)

  /** A call descriptor: target program, ordered account list, payload. */
  datatype Instruction = Instruction(programId: Pubkey, accounts: seq<AccountMeta>, data: seq<Byte>)

  /** The two address derivations, as arbitrary deterministic functions. */
  datatype Derivation = Derivation(
    findProgramAddress: (seq<seq<Byte>>, Pubkey) -> (Pubkey, Byte),
    associatedTokenAddress: (Pubkey, Pubkey) -> Pubkey)

  /** Fixed program ids and the CP-swap program's authority seed, all opaque here. */
  datatype ProgramIds = ProgramIds(
    rentSysvar: Pubkey,
    systemProgram: Pubkey,
    tokenProgram: Pubkey,
    token2022Program: Pubkey,
    memoProgram: Pubkey,
    metadataProgram: Pubkey,
    associatedTokenProgram: Pubkey,
    cpAuthSeed: seq<Byte>)

  /** The parts of `CommonConfig` the builders use: the wallet path and three program ids. */
  datatype CommonConfig = CommonConfig(wallet: string, lockProgram: Pubkey, cpProgram: Pubkey, clmmProgram: Pubkey)

  datatype BuildError = KeypairReadFailed(path: string)

  // ---------------------------------------------------------------------------
  // Derived addresses

  function FindProgramAddress(d: Derivation, seeds: seq<seq<Byte>>, program: Pubkey): Pubkey {
    d.findProgramAddress(seeds, program).0
  }

  function Ata(d: Derivation, owner: Pubkey, mint: Pubkey): Pubkey {
    d.associatedTokenAddress(owner, mint)
  }

  function LockCpAuthoritySeeds(): seq<seq<Byte>> {
    [AsBytes(LOCK_CP_AUTH_SEED)]
  }

  function LockedLiquiditySeeds(feeNftMint: Pubkey): seq<seq<Byte>> {
    [AsBytes(LOCKED_LIQUIDITY_SEED), feeNftMint]
  }

  function LockClmmAuthoritySeeds(): seq<seq<Byte>> {
    [AsBytes(LOCK_CLMM_AUTH_SEED)]
  }

  function LockedPositionSeeds(feeNftMint: Pubkey): seq<seq<Byte>> {
    [AsBytes(LOCKED_POSITION_SEED), feeNftMint]
  }

  function MetadataSeeds(ids: ProgramIds, mint: Pubkey): seq<seq<Byte>> {
    [AsBytes(METADATA_PREFIX), ids.metadataProgram, mint]
  }

  function LockCpAuthority(d: Derivation, cfg: CommonConfig): Pubkey {
    FindProgramAddress(d, LockCpAuthoritySeeds(), cfg.lockProgram)
  }

  function LockedLiquidity(d: Derivation, cfg: CommonConfig, feeNftMint: Pubkey): Pubkey {
    FindProgramAddress(d, LockedLiquiditySeeds(feeNftMint), cfg.lockProgram)
  }

  function LockClmmAuthority(d: Derivation, cfg: CommonConfig): Pubkey {
    FindProgramAddress(d, LockClmmAuthoritySeeds(), cfg.clmmProgram)
  }

  function LockedPosition(d: Derivation, cfg: CommonConfig, feeNftMint: Pubkey): Pubkey {
    FindProgramAddress(d, LockedPositionSeeds(feeNftMint), cfg.clmmProgram)
  }

  function CpProgramAuthority(d: Derivation, cfg: CommonConfig, ids: ProgramIds): Pubkey {
    FindProgramAddress(d, [ids.cpAuthSeed], cfg.cpProgram)
  }

  function MetadataAccount(d: Derivation, ids: ProgramIds, mint: Pubkey): Pubkey {
    FindProgramAddress(d, MetadataSeeds(ids, mint), ids.metadataProgram)
  }

  // ---------------------------------------------------------------------------
  // Views of an account list

  function SignerIndices(accounts: seq<AccountMeta>): set<nat> {
    set i: nat | i < |accounts| && accounts[i].isSigner
  }

  function ReadOnlyIndices(accounts: seq<AccountMeta>): set<nat> {
    set i: nat | i < |accounts| && !accounts[i].isWritable
  }

  function SignerKeys(accounts: seq<AccountMeta>): set<Pubkey> {
    set i | 0 <= i < |accounts| && accounts[i].isSigner :: accounts[i].pubkey
  }

  // ---------------------------------------------------------------------------
  // Builders

  /** The account list of `lock_cp_liquidity_instruction`, in the lock program's order. */
  function LockCpLiquidityAccounts(
    cfg: CommonConfig, payer: Pubkey, d: Derivation, ids: ProgramIds,
    userLpToken: Pubkey, feeNftMint: Pubkey, poolId: Pubkey, lpMint: Pubkey,
    token0Vault: Pubkey, token1Vault: Pubkey
  ): (accounts: seq<AccountMeta>)
    ensures |accounts| == 18
  {
    var programLockCpAuthority := LockCpAuthority(d, cfg);
    var lockedLiquidity := LockedLiquidity(d, cfg, feeNftMint);
    var metadataAccountKey := MetadataAccount(d, ids, feeNftMint);
    var feeNftAccount := Ata(d, payer, feeNftMint);
    var lockedLpVault := Ata(d, programLockCpAuthority, lpMint);
    [
      AccountMeta(programLockCpAuthority, false, false),
      AccountMeta(payer, true, true),
      AccountMeta(payer, true, true),
      AccountMeta(payer, false, false),
      AccountMeta(feeNftMint, true, true),
      AccountMeta(feeNftAccount, false, true),
      AccountMeta(poolId, false, true),
      AccountMeta(lockedLiquidity, false, true),
      AccountMeta(lpMint, false, true),
      AccountMeta(userLpToken, false, true),
      AccountMeta(lockedLpVault, false, true),
      AccountMeta(token0Vault, false, true),
      AccountMeta(token1Vault, false, true),
      AccountMeta(metadataAccountKey, false, true),
      AccountMeta(ids.rentSysvar, false, false),
      AccountMeta(ids.systemProgram, false, false),
      AccountMeta(ids.tokenProgram, false, false),
      AccountMeta(ids.metadataProgram, false, false)
    ]
  }

  /** Which entries sign and which are read-only. */
  lemma LockCpLiquidityFlags(
    cfg: CommonConfig, payer: Pubkey, d: Derivation, ids: ProgramIds,
    userLpToken: Pubkey, feeNftMint: Pubkey, poolId: Pubkey, lpMint: Pubkey,
    token0Vault: Pubkey, token1Vault: Pubkey
  )
    ensures var accounts := LockCpLiquidityAccounts(cfg, payer, d, ids, userLpToken, feeNftMint, poolId, lpMint, token0Vault, token1Vault);
      && SignerIndices(accounts) == {1, 2, 4}
      && ReadOnlyIndices(accounts) == {0, 3, 14, 15, 16, 17}
  {
  }

  /** Only the caller and the fee NFT mint sign. */
  lemma LockCpLiquiditySignerKeys(
    cfg: CommonConfig, payer: Pubkey, d: Derivation, ids: ProgramIds,
    userLpToken: Pubkey, feeNftMint: Pubkey, poolId: Pubkey, lpMint: Pubkey,
    token0Vault: Pubkey, token1Vault: Pubkey
  )
    ensures SignerKeys(LockCpLiquidityAccounts(cfg, payer, d, ids, userLpToken, feeNftMint, poolId, lpMint, token0Vault, token1Vault)) == {payer, feeNftMint}
  {
    var accounts := LockCpLiquidityAccounts(cfg, payer, d, ids, userLpToken, feeNftMint, poolId, lpMint, token0Vault, token1Vault);
    LockCpLiquidityFlags(cfg, payer, d, ids, userLpToken, feeNftMint, poolId, lpMint, token0Vault, token1Vault);
    LockCpLiquidityAddresses(cfg, payer, d, ids, userLpToken, feeNftMint, poolId, lpMint, token0Vault, token1Vault);
    forall k | k in SignerKeys(accounts) ensures k == payer || k == feeNftMint {
      var i :| 0 <= i < |accounts| && accounts[i].isSigner && accounts[i].pubkey == k;
      assert i in SignerIndices(accounts);
    }
    assert accounts[1].isSigner && accounts[4].isSigner;
  }

  /** Where the caller, the fee NFT mint and the derived addresses sit in the list. */
  lemma LockCpLiquidityAddresses(
    cfg: CommonConfig, payer: Pubkey, d: Derivation, ids: ProgramIds,
    userLpToken: Pubkey, feeNftMint: Pubkey, poolId: Pubkey, lpMint: Pubkey,
    token0Vault: Pubkey, token1Vault: Pubkey
  )
    ensures var accounts := LockCpLiquidityAccounts(cfg, payer, d, ids, userLpToken, feeNftMint, poolId, lpMint, token0Vault, token1Vault);
      && accounts[0].pubkey == LockCpAuthority(d, cfg)
      && accounts[1].pubkey == payer && accounts[2].pubkey == payer && accounts[3].pubkey == payer
      && accounts[4].pubkey == feeNftMint
      && accounts[5].pubkey == Ata(d, payer, feeNftMint)
      && accounts[7].pubkey == LockedLiquidity(d, cfg, feeNftMint)
      && accounts[10].pubkey == Ata(d, LockCpAuthority(d, cfg), lpMint)
      && accounts[13].pubkey == MetadataAccount(d, ids, feeNftMint)
  {
  }

  /** `lock_cp_liquidity_instruction` */
  function LockCpLiquidityInstruction(
    cfg: CommonConfig, wallet: Option<Pubkey>, d: Derivation, ids: ProgramIds,
    userLpToken: Pubkey, feeNftMint: Pubkey, poolId: Pubkey, lpMint: Pubkey,
    token0Vault: Pubkey, token1Vault: Pubkey, lpAmount: U64, withMetadata: bool
  ): (r: Result<seq<Instruction>, BuildError>)
    ensures wallet.None? ==> r == Failure(KeypairReadFailed(cfg.wallet))
    ensures wallet.Some? ==> r.Success? && |r.value| == 1
    ensures r.Success? ==>
      && r.value[0].programId == cfg.lockProgram
      && r.value[0].data == SerializeLockCpLiquidityIx(lpAmount, withMetadata)
      && ParseInstruction(r.value[0].data) == Some(LockCpLiquidity(lpAmount, withMetadata))
      && r.value[0].accounts == LockCpLiquidityAccounts(
           cfg, wallet.value, d, ids, userLpToken, feeNftMint, poolId, lpMint, token0Vault, token1Vault)
  {
    match wallet
    case None => Failure(KeypairReadFailed(cfg.wallet))
    case Some(payer) =>
      var accounts := LockCpLiquidityAccounts(
        cfg, payer, d, ids, userLpToken, feeNftMint, poolId, lpMint, token0Vault, token1Vault);
      ParseSerialize(LockCpLiquidity(lpAmount, withMetadata));
      Success([Instruction(cfg.lockProgram, accounts, SerializeLockCpLiquidityIx(lpAmount, withMetadata))])
  }

  /** The account list of `collect_cp_fees_instruction`, in the lock program's order. */
  function CollectCpFeesAccounts(
    cfg: CommonConfig, payer: Pubkey, d: Derivation, ids: ProgramIds,
    feeNftMint: Pubkey, feeNftAccount: Pubkey, poolId: Pubkey, lpMint: Pubkey,
    token0Vault: Pubkey, token1Vault: Pubkey, vault0Mint: Pubkey, vault1Mint: Pubkey,
    userToken0: Pubkey, userToken1: Pubkey
  ): (accounts: seq<AccountMeta>)
    ensures |accounts| == 21
  {
    var programLockCpAuthority := LockCpAuthority(d, cfg);
    var cpProgramAuthority := CpProgramAuthority(d, cfg, ids);
    var lockedLiquidity := LockedLiquidity(d, cfg, feeNftMint);
    [
      AccountMeta(programLockCpAuthority, false, false),
      AccountMeta(payer, true, true),
      AccountMeta(payer, true, true),
      AccountMeta(payer, false, false),
      AccountMeta(feeNftMint, true, true),
      AccountMeta(feeNftAccount, false, true),
      AccountMeta(lockedLiquidity, false, true),
      AccountMeta(cfg.cpProgram, false, true),
      AccountMeta(cpProgramAuthority, false, true),
      AccountMeta(poolId, false, true),
      AccountMeta(lpMint, false, true),
      AccountMeta(userToken0, false, true),
      AccountMeta(userToken1, false, true),
      AccountMeta(token0Vault, false, true),
      AccountMeta(token1Vault, false, true),
      AccountMeta(vault0Mint, false, false),
      AccountMeta(vault1Mint, false, false),
      AccountMeta(Ata(d, programLockCpAuthority, lpMint), false, true),
      AccountMeta(ids.tokenProgram, false, false),
      AccountMeta(ids.token2022Program, false, false),
      AccountMeta(ids.memoProgram, false, false)
    ]
  }

  /** Which entries sign and which are read-only. */
  lemma CollectCpFeesFlags(
    cfg: CommonConfig, payer: Pubkey, d: Derivation, ids: ProgramIds,
    feeNftMint: Pubkey, feeNftAccount: Pubkey, poolId: Pubkey, lpMint: Pubkey,
    token0Vault: Pubkey, token1Vault: Pubkey, vault0Mint: Pubkey, vault1Mint: Pubkey,
    userToken0: Pubkey, userToken1: Pubkey
  )
    ensures var accounts := CollectCpFeesAccounts(
      cfg, payer, d, ids, feeNftMint, feeNftAccount, poolId, lpMint,
      token0Vault, token1Vault, vault0Mint, vault1Mint, userToken0, userToken1);
      && SignerIndices(accounts) == {1, 2, 4}
      && ReadOnlyIndices(accounts) == {0, 3, 15, 16, 18, 19, 20}
  {
  }

  /** Only the caller and the fee NFT mint sign. */
  lemma CollectCpFeesSignerKeys(
    cfg: CommonConfig, payer: Pubkey, d: Derivation, ids: ProgramIds,
    feeNftMint: Pubkey, feeNftAccount: Pubkey, poolId: Pubkey, lpMint: Pubkey,
    token0Vault: Pubkey, token1Vault: Pubkey, vault0Mint: Pubkey, vault1Mint: Pubkey,
    userToken0: Pubkey, userToken1: Pubkey
  )
    ensures SignerKeys(CollectCpFeesAccounts(
      cfg, payer, d, ids, feeNftMint, feeNftAccount, poolId, lpMint,
      token0Vault, token1Vault, vault0Mint, vault1Mint, userToken0, userToken1)) == {payer, feeNftMint}
  {
    var accounts := CollectCpFeesAccounts(
      cfg, payer, d, ids, feeNftMint, feeNftAccount, poolId, lpMint,
      token0Vault, token1Vault, vault0Mint, vault1Mint, userToken0, userToken1);
    CollectCpFeesFlags(
      cfg, payer, d, ids, feeNftMint, feeNftAccount, poolId, lpMint,
      token0Vault, token1Vault, vault0Mint, vault1Mint, userToken0, userToken1);
    CollectCpFeesAddresses(
      cfg, payer, d, ids, feeNftMint, feeNftAccount, poolId, lpMint,
      token0Vault, token1Vault, vault0Mint, vault1Mint, userToken0, userToken1);
    forall k | k in SignerKeys(accounts) ensures k == payer || k == feeNftMint {
      var i :| 0 <= i < |accounts| && accounts[i].isSigner && accounts[i].pubkey == k;
      assert i in SignerIndices(accounts);
    }
    assert accounts[1].isSigner && accounts[4].isSigner;
  }

  /** Where the caller, the fee NFT mint and the derived addresses sit in the list. */
  lemma CollectCpFeesAddresses(
    cfg: CommonConfig, payer: Pubkey, d: Derivation, ids: ProgramIds,
    feeNftMint: Pubkey, feeNftAccount: Pubkey, poolId: Pubkey, lpMint: Pubkey,
    token0Vault: Pubkey, token1Vault: Pubkey, vault0Mint: Pubkey, vault1Mint: Pubkey,
    userToken0: Pubkey, userToken1: Pubkey
  )
    ensures var accounts := CollectCpFeesAccounts(
      cfg, payer, d, ids, feeNftMint, feeNftAccount, poolId, lpMint,
      token0Vault, token1Vault, vault0Mint, vault1Mint, userToken0, userToken1);
      && accounts[0].pubkey == LockCpAuthority(d, cfg)
      && accounts[1].pubkey == payer && accounts[2].pubkey == payer && accounts[3].pubkey == payer
      && accounts[4].pubkey == feeNftMint
      && accounts[6].pubkey == LockedLiquidity(d, cfg, feeNftMint)
      && accounts[7].pubkey == cfg.cpProgram
      && accounts[8].pubkey == CpProgramAuthority(d, cfg, ids)
      && accounts[17].pubkey == Ata(d, LockCpAuthority(d, cfg), lpMint)
  {
  }

  /** `collect_cp_fees_instruction` */
  function CollectCpFeesInstruction(
    cfg: CommonConfig, wallet: Option<Pubkey>, d: Derivation, ids: ProgramIds,
    feeNftMint: Pubkey, feeNftAccount: Pubkey, poolId: Pubkey, lpMint: Pubkey,
    token0Vault: Pubkey, token1Vault: Pubkey, vault0Mint: Pubkey, vault1Mint: Pubkey,
    userToken0: Pubkey, userToken1: Pubkey, feeLpAmount: U64
  ): (r: Result<seq<Instruction>, BuildError>)
    ensures wallet.None? ==> r == Failure(KeypairReadFailed(cfg.wallet))
    ensures wallet.Some? ==> r.Success? && |r.value| == 1
    ensures r.Success? ==>
      && r.value[0].programId == cfg.lockProgram
      && r.value[0].data == SerializeCollectCpFeeIx(feeLpAmount)
      && ParseInstruction(r.value[0].data) == Some(CollectCpFee(feeLpAmount))
      && r.value[0].accounts == CollectCpFeesAccounts(
           cfg, wallet.value, d, ids, feeNftMint, feeNftAccount, poolId, lpMint,
           token0Vault, token1Vault, vault0Mint, vault1Mint, userToken0, userToken1)
  {
    match wallet
    case None => Failure(KeypairReadFailed(cfg.wallet))
    case Some(payer) =>
      var accounts := CollectCpFeesAccounts(
        cfg, payer, d, ids, feeNftMint, feeNftAccount, poolId, lpMint,
        token0Vault, token1Vault, vault0Mint, vault1Mint, userToken0, userToken1);
      ParseSerialize(CollectCpFee(feeLpAmount));
      Success([Instruction(cfg.lockProgram, accounts, SerializeCollectCpFeeIx(feeLpAmount))])
  }

  /** The account list of `lock_clmm_position_instruction`, in the lock program's order. */
  function LockClmmPositionAccounts(
    cfg: CommonConfig, payer: Pubkey, d: Derivation, ids: ProgramIds,
    positionNftAccount: Pubkey, positionNftMint: Pubkey, feeNftMint: Pubkey, personalPosition: Pubkey
  ): (accounts: seq<AccountMeta>)
    ensures |accounts| == 17
  {
    var programLockClmmAuthority := LockClmmAuthority(d, cfg);
    var lockedPosition := LockedPosition(d, cfg, feeNftMint);
    var metadataAccountKey := MetadataAccount(d, ids, feeNftMint);
    var feeNftAccount := Ata(d, payer, feeNftMint);
    var lockedNftAccount := Ata(d, programLockClmmAuthority, positionNftMint);
    [
      AccountMeta(programLockClmmAuthority, false, false),
      AccountMeta(payer, true, true),
      AccountMeta(payer, true, true),
      AccountMeta(payer, false, false),
      AccountMeta(positionNftAccount, false, true),
      AccountMeta(personalPosition, false, true),
      AccountMeta(positionNftMint, false, true),
      AccountMeta(lockedNftAccount, false, true),
      AccountMeta(lockedPosition, false, true),
      AccountMeta(feeNftMint, true, true),
      AccountMeta(feeNftAccount, false, true),
      AccountMeta(metadataAccountKey, false, true),
      AccountMeta(ids.metadataProgram, false, false),
      AccountMeta(ids.associatedTokenProgram, false, false),
      AccountMeta(ids.rentSysvar, false, false),
      AccountMeta(ids.tokenProgram, false, false),
      AccountMeta(ids.systemProgram, false, false)
    ]
  }

  /** Which entries sign and which are read-only. */
  lemma LockClmmPositionFlags(
    cfg: CommonConfig, payer: Pubkey, d: Derivation, ids: ProgramIds,
    positionNftAccount: Pubkey, positionNftMint: Pubkey, feeNftMint: Pubkey, personalPosition: Pubkey
  )
    ensures var accounts := LockClmmPositionAccounts(cfg, payer, d, ids, positionNftAccount, positionNftMint, feeNftMint, personalPosition);
      && SignerIndices(accounts) == {1, 2, 9}
      && ReadOnlyIndices(accounts) == {0, 3, 12, 13, 14, 15, 16}
  {
  }

  /** Only the caller and the fee NFT mint sign. */
  lemma LockClmmPositionSignerKeys(
    cfg: CommonConfig, payer: Pubkey, d: Derivation, ids: ProgramIds,
    positionNftAccount: Pubkey, positionNftMint: Pubkey, feeNftMint: Pubkey, personalPosition: Pubkey
  )
    ensures SignerKeys(LockClmmPositionAccounts(cfg, payer, d, ids, positionNftAccount, positionNftMint, feeNftMint, personalPosition)) == {payer, feeNftMint}
  {
    var accounts := LockClmmPositionAccounts(cfg, payer, d, ids, positionNftAccount, positionNftMint, feeNftMint, personalPosition);
    LockClmmPositionFlags(cfg, payer, d, ids, positionNftAccount, positionNftMint, feeNftMint, personalPosition);
    LockClmmPositionAddresses(cfg, payer, d, ids, positionNftAccount, positionNftMint, feeNftMint, personalPosition);
    forall k | k in SignerKeys(accounts) ensures k == payer || k == feeNftMint {
      var i :| 0 <= i < |accounts| && accounts[i].isSigner && accounts[i].pubkey == k;
      assert i in SignerIndices(accounts);
    }
    assert accounts[1].isSigner && accounts[9].isSigner;
  }

  /** Where the caller, the fee NFT mint and the derived addresses sit in the list. */
  lemma LockClmmPositionAddresses(
    cfg: CommonConfig, payer: Pubkey, d: Derivation, ids: ProgramIds,
    positionNftAccount: Pubkey, positionNftMint: Pubkey, feeNftMint: Pubkey, personalPosition: Pubkey
  )
    ensures var accounts := LockClmmPositionAccounts(cfg, payer, d, ids, positionNftAccount, positionNftMint, feeNftMint, personalPosition);
      && accounts[0].pubkey == LockClmmAuthority(d, cfg)
      && accounts[1].pubkey == payer && accounts[2].pubkey == payer && accounts[3].pubkey == payer
      && accounts[7].pubkey == Ata(d, LockClmmAuthority(d, cfg), positionNftMint)
      && accounts[8].pubkey == LockedPosition(d, cfg, feeNftMint)
      && accounts[9].pubkey == feeNftMint
      && accounts[10].pubkey == Ata(d, payer, feeNftMint)
      && accounts[11].pubkey == MetadataAccount(d, ids, feeNftMint)
  {
  }

  /** `lock_clmm_position_instruction` */
  function LockClmmPositionInstruction(
    cfg: CommonConfig, wallet: Option<Pubkey>, d: Derivation, ids: ProgramIds,
    positionNftAccount: Pubkey, positionNftMint: Pubkey, feeNftMint: Pubkey, personalPosition: Pubkey,
    withMetadata: bool
  ): (r: Result<seq<Instruction>, BuildError>)
    ensures wallet.None? ==> r == Failure(KeypairReadFailed(cfg.wallet))
    ensures wallet.Some? ==> r.Success? && |r.value| == 1
    ensures r.Success? ==>
      && r.value[0].programId == cfg.lockProgram
      && r.value[0].data == SerializeLockClmmPositionIx(withMetadata)
      && ParseInstruction(r.value[0].data) == Some(LockClmmPosition(withMetadata))
      && r.value[0].accounts == LockClmmPositionAccounts(
           cfg, wallet.value, d, ids, positionNftAccount, positionNftMint, feeNftMint, personalPosition)
  {
    match wallet
    case None => Failure(KeypairReadFailed(cfg.wallet))
    case Some(payer) =>
      var accounts := LockClmmPositionAccounts(
        cfg, payer, d, ids, positionNftAccount, positionNftMint, feeNftMint, personalPosition);
      ParseSerialize(LockClmmPosition(withMetadata));
      Success([Instruction(cfg.lockProgram, accounts, SerializeLockClmmPositionIx(withMetadata))])
  }

  // ---------------------------------------------------------------------------
  // Relations between the builders

  /**
    Locking a CP position and later collecting its fees with the same fee NFT mint
    address the same lock authority, escrow record and locked LP vault, and both
    require the mint's signature.
  */
  lemma LockThenCollectShareAccounts(
    cfg: CommonConfig, payer: Pubkey, d: Derivation, ids: ProgramIds,
    userLpToken: Pubkey, feeNftMint: Pubkey, feeNftAccount: Pubkey, poolId: Pubkey, lpMint: Pubkey,
    token0Vault: Pubkey, token1Vault: Pubkey, vault0Mint: Pubkey, vault1Mint: Pubkey,
    userToken0: Pubkey, userToken1: Pubkey
  )
    ensures var lock := LockCpLiquidityAccounts(
      cfg, payer, d, ids, userLpToken, feeNftMint, poolId, lpMint, token0Vault, token1Vault);
    var collect := CollectCpFeesAccounts(
      cfg, payer, d, ids, feeNftMint, feeNftAccount, poolId, lpMint,
      token0Vault, token1Vault, vault0Mint, vault1Mint, userToken0, userToken1);
    && lock[0] == collect[0]
    && lock[4] == collect[4]
    && lock[7].pubkey == collect[6].pubkey
    && lock[10].pubkey == collect[17].pubkey
  {
    LockCpLiquidityFlags(cfg, payer, d, ids, userLpToken, feeNftMint, poolId, lpMint, token0Vault, token1Vault);
    LockCpLiquidityAddresses(cfg, payer, d, ids, userLpToken, feeNftMint, poolId, lpMint, token0Vault, token1Vault);
    CollectCpFeesFlags(
      cfg, payer, d, ids, feeNftMint, feeNftAccount, poolId, lpMint,
      token0Vault, token1Vault, vault0Mint, vault1Mint, userToken0, userToken1);
    CollectCpFeesAddresses(
      cfg, payer, d, ids, feeNftMint, feeNftAccount, poolId, lpMint,
      token0Vault, token1Vault, vault0Mint, vault1Mint, userToken0, userToken1);
  }

  /**
    Both lock builders derive the fee NFT's metadata account and the caller's fee NFT
    account in the same way, so one fee NFT mint yields the same two addresses.
  */
  lemma LockBuildersShareFeeNftAccounts(
    cfg: CommonConfig, payer: Pubkey, d: Derivation, ids: ProgramIds,
    userLpToken: Pubkey, feeNftMint: Pubkey, poolId: Pubkey, lpMint: Pubkey,
    token0Vault: Pubkey, token1Vault: Pubkey,
    positionNftAccount: Pubkey, positionNftMint: Pubkey, personalPosition: Pubkey
  )
    ensures var cp := LockCpLiquidityAccounts(
      cfg, payer, d, ids, userLpToken, feeNftMint, poolId, lpMint, token0Vault, token1Vault);
    var clmm := LockClmmPositionAccounts(
      cfg, payer, d, ids, positionNftAccount, positionNftMint, feeNftMint, personalPosition);
    && cp[13].pubkey == clmm[11].pubkey == MetadataAccount(d, ids, feeNftMint)
    && cp[5].pubkey == clmm[10].pubkey == Ata(d, payer, feeNftMint)
  {
    LockCpLiquidityAddresses(cfg, payer, d, ids, userLpToken, feeNftMint, poolId, lpMint, token0Vault, token1Vault);
    LockClmmPositionAddresses(cfg, payer, d, ids, positionNftAccount, positionNftMint, feeNftMint, personalPosition);
  }

  /**
    The seed lists of the lock program's addresses never coincide: distinct fee NFT
    mints give distinct escrow seeds, and the authority, liquidity and position seeds
    differ from one another whatever the mints.
  */
  lemma SeedsSeparate(mint1: Pubkey, mint2: Pubkey)
    ensures LockedLiquiditySeeds(mint1) == LockedLiquiditySeeds(mint2) ==> mint1 == mint2
    ensures LockedPositionSeeds(mint1) == LockedPositionSeeds(mint2) ==> mint1 == mint2
    ensures LockedLiquiditySeeds(mint1) != LockedPositionSeeds(mint2)
    ensures LockCpAuthoritySeeds() != LockClmmAuthoritySeeds()
    ensures LockCpAuthoritySeeds() != LockedLiquiditySeeds(mint1)
    ensures LockClmmAuthoritySeeds() != LockedPositionSeeds(mint1)
  {
    assert |AsBytes(LOCKED_LIQUIDITY_SEED)| != |AsBytes(LOCKED_POSITION_SEED)|;
    assert AsBytes(LOCK_CP_AUTH_SEED)[0] != AsBytes(LOCK_CLMM_AUTH_SEED)[0];
  }
}
