# Raydium lock client: wire layer

This project models the part of the Raydium liquidity-locking command-line client
that talks to the lock program:

- the byte layout of the four lock-program instructions (an 8-byte Anchor
  discriminator followed by the Borsh-encoded arguments);
- the decoding of the two on-chain records the client reads back, the locked
  CP-swap liquidity record and the locked CLMM position record, with their length
  and discriminator checks;
- the three builders that assemble a lock-program call: `lock_cp_liquidity_instruction`,
  `collect_cp_fees_instruction` and `lock_clmm_position_instruction`. Each builder
  derives the program addresses, lists the accounts in the order the lock program
  expects, sets the signer and writable flags, and attaches the payload.

All of this code is pure apart from the keypair-file read in each builder
(`read_keypair_file`), which becomes the `wallet` parameter. So the model is made
of datatypes, functions and lemmas.

The model has three modules:

- `Borsh` (`borsh.dfy`) holds the fixed-width subset of the Borsh layout that the
  client uses. That is little-endian `u64`/`u128`, one-byte booleans and fixed byte
  arrays. It has a field-list encoder, the matching decoder and their round-trip lemmas.
- `LockUtils` (`lock_utils.dfy`) holds the seeds, discriminators, instruction
  payloads and account records. Seeds are turned into bytes by `AsBytes`, the
  definition of `str::as_bytes` on ASCII strings: one byte per character, carrying
  the character's code.
- `LockInstructions` (`lock_instructions.dfy`) holds the three builders.
  Address derivation is a parameter there: a `Derivation` value holds an arbitrary
  `find_program_address` and an arbitrary `get_associated_token_address`, so every
  builder fact holds whatever those functions compute. The outcome of reading the
  wallet keypair file is also a parameter: `None` means the read failed.

The source panics on a malformed record. The model returns
`Failure(DataLenMismatch)` or `Failure(DiscriminatorMismatch)` in those cases instead.

## Model

| member | source | states |
|---|---|---|
| Borsh.LeValueOfLeBytes | libraries/lock_cli/src/lock_utils.rs:18 | reading back the n little-endian bytes written for a value below 256^n gives that value |
| Borsh.LeBytesOfLeValue | libraries/lock_cli/src/lock_utils.rs:18 | every byte string is the little-endian encoding of its value, so each fixed-width integer has exactly one encoding |
| Borsh.DecodeField | libraries/lock_cli/src/lock_utils.rs:121 | a field decodes exactly when it is not a boolean byte above 1; a decoded field has the requested kind and re-encodes to the same bytes |
| Borsh.DecodeFields | libraries/lock_cli/src/lock_utils.rs:121 | a successful struct read has the requested field kinds and re-encodes to exactly the input, so no bytes are left over |
| Borsh.DecodeEncodeFields | libraries/lock_cli/src/lock_utils.rs:15-31 | decoding the encoding of any field list with its own kinds gives the same list back |
| Borsh.DecodeEncodeField | libraries/lock_cli/src/lock_utils.rs:15-20 | decoding one encoded field gives the same field back |
| Borsh.DecodeFieldsTotal | libraries/lock_cli/src/lock_utils.rs:121 | a layout without booleans decodes every input whose length is the sum of its field widths |
| Borsh.U64sWidth | libraries/lock_cli/src/lock_utils.rs:106 | a run of `u64` fields takes eight bytes each and holds no boolean |
| Borsh.SumWidthsAppend | libraries/lock_cli/src/lock_utils.rs:110 | the width of a concatenated layout is the sum of the parts' widths |
| Borsh.EncodeFieldsCons | libraries/lock_cli/src/lock_utils.rs:15-20 | fields are written one after another in declaration order |
| LockUtils.InstructionFields | libraries/lock_cli/src/lock_utils.rs:15-81 | each instruction struct has the declared field kinds: discriminator array, then its arguments |
| LockUtils.Serialize | libraries/lock_cli/src/lock_utils.rs:15-81 | a payload is as long as its layout and begins with its instruction's discriminator |
| LockUtils.SerializeLockCpLiquidityIx | libraries/lock_cli/src/lock_utils.rs:21-31 | 17 bytes: the lock-CP discriminator, the amount as 8 little-endian bytes, then the flag as 0 or 1 |
| LockUtils.SerializeCollectCpFeeIx | libraries/lock_cli/src/lock_utils.rs:39-48 | 16 bytes: the collect-CP discriminator, then the fee LP amount as 8 little-endian bytes |
| LockUtils.SerializeLockClmmPositionIx | libraries/lock_cli/src/lock_utils.rs:56-66 | 9 bytes: the lock-CLMM discriminator, then the flag as 0 or 1 |
| LockUtils.SerializeCollectClmmFeesIx | libraries/lock_cli/src/lock_utils.rs:72-81 | the payload is exactly the 8-byte collect-CLMM discriminator |
| LockUtils.ParseInstruction | libraries/lock_cli/src/lock_utils.rs:15-81 | a reference reader added as the encoders' inverse (the client never parses payloads): it dispatches on the discriminator, then reads the whole slice strictly; whatever it accepts is the serialization of the instruction it returns |
| LockUtils.ParseSerialize | libraries/lock_cli/src/lock_utils.rs:15-81 | parsing a serialized instruction gives the same instruction and arguments back |
| LockUtils.ParsedFields | libraries/lock_cli/src/lock_utils.rs:15-81 | decoded fields that fit an instruction's layout and carry its discriminator and arguments are that instruction's serialization |
| LockUtils.DiscriminatorsDistinct | libraries/lock_cli/src/lock_utils.rs:10-13 | the four instruction discriminators and the two record discriminators are pairwise distinct |
| LockUtils.PrefixDeterminesKind | libraries/lock_cli/src/lock_utils.rs:10-13 | two payloads with the same first 8 bytes come from the same instruction constructor |
| LockUtils.PaddingWidth | libraries/lock_cli/src/lock_utils.rs:106 | the `[u64; 8]` padding takes 64 bytes |
| LockUtils.PaddedWidth | libraries/lock_cli/src/lock_utils.rs:106 | appending the padding adds 64 bytes and no boolean field |
| LockUtils.PaddingRoundTrip | libraries/lock_cli/src/lock_utils.rs:106 | the padding's field list has eight `u64` kinds and converts back to the same padding |
| LockUtils.CpStateFieldsKinds | libraries/lock_cli/src/lock_utils.rs:84-107 | the liquidity record's fields follow the declared order and types |
| LockUtils.CpStateOfFields | libraries/lock_cli/src/lock_utils.rs:84-107 | any field list of the liquidity layout is the field list of the record built from it |
| LockUtils.LockedCpLiquidityBytes | libraries/lock_cli/src/lock_utils.rs:110-111 | a stored liquidity record is `LEN` bytes long and starts with its discriminator |
| LockUtils.DeserializeLockedCpLiquidity | libraries/lock_cli/src/lock_utils.rs:113-123 | a wrong length gives the length error; otherwise a wrong prefix gives the discriminator error; it succeeds exactly when both checks pass, and the record returned is what the bytes encode |
| LockUtils.CpLayoutWidth | libraries/lock_cli/src/lock_utils.rs:110 | the declared field widths add up to `LEN` minus the 8-byte discriminator, and no field is a boolean, so the final `unwrap` never fails |
| LockUtils.LockedCpLiquidityRoundTrip | libraries/lock_cli/src/lock_utils.rs:84-123 | every liquidity record, written in the declared layout, reads back unchanged |
| LockUtils.ClmmStateFieldsKinds | libraries/lock_cli/src/lock_utils.rs:127-144 | the position record's fields follow the declared order and types |
| LockUtils.ClmmStateOfFields | libraries/lock_cli/src/lock_utils.rs:127-144 | any field list of the position layout is the field list of the record built from it |
| LockUtils.LockedClmmPositionBytes | libraries/lock_cli/src/lock_utils.rs:147-148 | a stored position record is `LEN` bytes long and starts with its discriminator |
| LockUtils.DeserializeLockedClmmPosition | libraries/lock_cli/src/lock_utils.rs:150-160 | a wrong length gives the length error; otherwise a wrong prefix gives the discriminator error; it succeeds exactly when both checks pass, and the record returned is what the bytes encode |
| LockUtils.ClmmLayoutWidth | libraries/lock_cli/src/lock_utils.rs:147 | the declared field widths add up to `LEN` minus the discriminator, and no field is a boolean |
| LockUtils.LockedClmmPositionRoundTrip | libraries/lock_cli/src/lock_utils.rs:127-160 | every position record, written in the declared layout, reads back unchanged |
| LockUtils.MalformedBlobsRejected | libraries/lock_cli/src/lock_utils.rs:113-120 | all-zero blobs of the right length fail the discriminator check; blobs one byte short fail the length check |
| LockUtils.CrossKindRejected | libraries/lock_cli/src/lock_utils.rs:110-160 | a record of one kind is never read as the other: the lengths differ, and a wrong discriminator at the right length is refused |
| LockInstructions.LockCpLiquidityAccounts | libraries/lock_cli/src/lock_instructions.rs:48-67 | the lock-CP account list has 18 entries |
| LockInstructions.LockCpLiquidityFlags | libraries/lock_cli/src/lock_instructions.rs:48-67 | entries 1, 2 and 4 sign; entries 0, 3 and 14-17 are read-only; all others are writable |
| LockInstructions.LockCpLiquiditySignerKeys | libraries/lock_cli/src/lock_instructions.rs:48-67 | the only signing keys are the wallet and the fee NFT mint |
| LockInstructions.LockCpLiquidityAddresses | libraries/lock_cli/src/lock_instructions.rs:24-62 | the lock authority, wallet, fee NFT mint, fee NFT account, escrow record, locked LP vault and metadata account sit at their positions and come from the stated derivations |
| LockInstructions.LockCpLiquidityInstruction | libraries/lock_cli/src/lock_instructions.rs:11-74 | a failed keypair read gives the read error with the wallet path; otherwise exactly one call to the lock program whose payload is the lock-CP serialization, parses back to the given amount and flag, and whose accounts are the list above |
| LockInstructions.CollectCpFeesAccounts | libraries/lock_cli/src/lock_instructions.rs:108-136 | the collect-CP account list has 21 entries |
| LockInstructions.CollectCpFeesFlags | libraries/lock_cli/src/lock_instructions.rs:108-136 | entries 1, 2 and 4 sign; entries 0, 3, 15, 16 and 18-20 are read-only; all others are writable |
| LockInstructions.CollectCpFeesSignerKeys | libraries/lock_cli/src/lock_instructions.rs:108-136 | the only signing keys are the wallet and the fee NFT mint |
| LockInstructions.CollectCpFeesAddresses | libraries/lock_cli/src/lock_instructions.rs:93-136 | the lock authority, wallet, fee NFT mint, escrow record, CP-swap program, CP-swap authority and locked LP vault sit at their positions and come from the stated derivations |
| LockInstructions.CollectCpFeesInstruction | libraries/lock_cli/src/lock_instructions.rs:76-143 | a failed keypair read gives the read error; otherwise exactly one call to the lock program whose payload carries the fee LP amount and whose accounts are the list above |
| LockInstructions.LockClmmPositionAccounts | libraries/lock_cli/src/lock_instructions.rs:181-199 | the lock-CLMM account list has 17 entries |
| LockInstructions.LockClmmPositionFlags | libraries/lock_cli/src/lock_instructions.rs:181-199 | entries 1, 2 and 9 sign; entries 0, 3 and 12-16 are read-only; all others are writable |
| LockInstructions.LockClmmPositionSignerKeys | libraries/lock_cli/src/lock_instructions.rs:181-199 | the only signing keys are the wallet and the fee NFT mint |
| LockInstructions.LockClmmPositionAddresses | libraries/lock_cli/src/lock_instructions.rs:156-193 | the CLMM lock authority and locked position record are derived under the CLMM program id; the locked NFT account, fee NFT account and metadata account sit at their positions |
| LockInstructions.LockClmmPositionInstruction | libraries/lock_cli/src/lock_instructions.rs:145-206 | a failed keypair read gives the read error; otherwise exactly one call addressed to the lock program whose payload carries the metadata flag and whose accounts are the list above |
| LockInstructions.LockThenCollectShareAccounts | libraries/lock_cli/src/lock_instructions.rs:24-30 | for one fee NFT mint, locking and collecting use the same lock authority entry, the same signing fee mint entry, the same escrow record and the same locked LP vault |
| LockInstructions.LockBuildersShareFeeNftAccounts | libraries/lock_cli/src/lock_instructions.rs:31-40 | both lock builders derive the same metadata account and fee NFT account from one fee NFT mint |
| LockInstructions.SeedsSeparate | libraries/lock_cli/src/lock_utils.rs:4-8 | escrow seeds determine the fee NFT mint; the CP and CLMM authority seeds differ; liquidity and position seeds never coincide |

The CLMM builder derives its lock authority and its locked-position record under
the CLMM program id, while the call itself goes to the lock program. The model
keeps this as written (`libraries/lock_cli/src/lock_instructions.rs:156-163`).

The locked-CLMM-position account list in the code has 17 entries: the associated
token program sits between the metadata program and the rent sysvar
(`libraries/lock_cli/src/lock_instructions.rs:181-199`).

## Left out

- `process_lock_commands.rs` is not part of this model. It parses the command line, fetches accounts over RPC, and signs and sends transactions; all of that is I/O.
- Program-address and associated-token-address derivation are not modelled: they are SHA-256 searches over curve points. `Derivation` takes them as arbitrary functions, so no builder fact depends on them.
- The bump byte that `find_program_address` returns is dropped, as the source drops it.
- The well-known program ids (rent sysvar, system, token, token-2022, memo, token metadata, associated token) and the CP-swap authority seed are constants of external crates. They are opaque fields of `ProgramIds`.
- Reading the keypair file is I/O. Its outcome is the `wallet` parameter; the error text carries only the wallet path.
- The `serialize_ix` functions return a `Result` but can never fail. They are total functions in the model, so the builders' `unwrap` calls never panic.
- The two record decoders panic in the source; the model returns a `DecodeError` instead.
- The Borsh and Anchor libraries are modelled only for the fixed-width field kinds these structs use. There are no vectors, strings, options or enums.
- LockInstructions.LockCpLiquidityAccounts: its own contract states only the length; the flags, signer keys and key positions are in `LockCpLiquidityFlags`, `LockCpLiquiditySignerKeys` and `LockCpLiquidityAddresses`.
- LockInstructions.CollectCpFeesAccounts: its own contract states only the length; the rest is in `CollectCpFeesFlags`, `CollectCpFeesSignerKeys` and `CollectCpFeesAddresses`.
- LockInstructions.LockClmmPositionAccounts: its own contract states only the length; the rest is in `LockClmmPositionFlags`, `LockClmmPositionSignerKeys` and `LockClmmPositionAddresses`.
- The `…Addresses` lemmas fix the positions of the derived and signing entries only. The entries passed straight through from the caller, such as pool ids, vaults, mints and program ids, are fixed only by the function bodies.
