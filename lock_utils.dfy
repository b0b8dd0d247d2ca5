/**
  The lock program's wire formats, as the client sees them: the PDA seed strings,
  the 8-byte Anchor discriminators, the payloads of the four lock-program
  instructions, and the two account records the client reads back
  (`LockedCpLiquidityState`, `LockedClmmPositionState`).
*/
module LockUtils {
  import opened Wrappers
  import opened Borsh

  // ---------------------------------------------------------------------------
  // Seeds

  const LOCK_CLMM_AUTH_SEED: string := "program_authority_seed"
  const LOCK_CP_AUTH_SEED: string := "lock_cp_authority_seed"
  const LOCKED_LIQUIDITY_SEED: string := "locked_liquidity"
  const LOCKED_POSITION_SEED: string := "locked_position"

  predicate IsAscii(s: string) {
    forall i | 0 <= i < |s| :: s[i] as int < 128
  }

  /** `str::as_bytes` on an ASCII seed string: one byte per character, carrying its code. */
  function AsBytes(s: string): (r: seq<Byte>)
    requires IsAscii(s)
    ensures |r| == |s|
    ensures forall i | 0 <= i < |s| :: r[i] == s[i] as int
  {
    seq(|s|, i requires 0 <= i < |s| => s[i] as int)
  }

  // ---------------------------------------------------------------------------
  // Instruction payloads

  type Discriminator = s: seq<Byte> | |s| == 8 witness [0, 0, 0, 0, 0, 0, 0, 0]

  const LOCK_CLMM_POSITION_INS: Discriminator := [188, 37, 179, 131, 82, 150, 84, 73]
  const COLLECT_CLMM_FEES_INS: Discriminator := [16, 72, 250, 198, 14, 162, 212, 19]
  const LOCK_CP_LIQUIDITY_INS: Discriminator := [216, 157, 29, 78, 38, 51, 31, 26]
  const COLLECT_CP_FEES_INS: Discriminator := [8, 30, 51, 199, 209, 184, 247, 133]

  /** The instruction structs' field lists: a [u8; 8] discriminator, then the arguments. */
  const LOCK_CP_LIQUIDITY_LAYOUT: seq<FieldKind> := [BytesK(8), U64K, BoolK]
  const COLLECT_CP_FEE_LAYOUT: seq<FieldKind> := [BytesK(8), U64K]
  const LOCK_CLMM_POSITION_LAYOUT: seq<FieldKind> := [BytesK(8), BoolK]
  const COLLECT_CLMM_FEES_LAYOUT: seq<FieldKind> := [BytesK(8)]

  /** The four lock-program instructions with their arguments. */
  datatype LockInstruction =
    | LockCpLiquidity(lpAmount: U64, withMetadata: bool)
    | CollectCpFee(feeLpAmount: U64)
    | LockClmmPosition(withMetadata: bool)
    | CollectClmmFees

  function InstructionDiscriminator(ix: LockInstruction): Discriminator {
    match ix
    case LockCpLiquidity(_, _) => LOCK_CP_LIQUIDITY_INS
    case CollectCpFee(_) => COLLECT_CP_FEES_INS
    case LockClmmPosition(_) => LOCK_CLMM_POSITION_INS
    case CollectClmmFees => COLLECT_CLMM_FEES_INS
  }

  /** The struct layout each instruction is serialized with. */
  function InstructionLayout(ix: LockInstruction): seq<FieldKind> {
    match ix
    case LockCpLiquidity(_, _) => LOCK_CP_LIQUIDITY_LAYOUT
    case CollectCpFee(_) => COLLECT_CP_FEE_LAYOUT
    case LockClmmPosition(_) => LOCK_CLMM_POSITION_LAYOUT
    case CollectClmmFees => COLLECT_CLMM_FEES_LAYOUT
  }

  /** The struct literal each `serialize_ix` builds, as a field list. */
  function InstructionFields(ix: LockInstruction): (vs: seq<FieldValue>)
    ensures KindsOf(vs) == InstructionLayout(ix)
  {
    match ix
    case LockCpLiquidity(a, m) => [BytesV(LOCK_CP_LIQUIDITY_INS), U64V(a), BoolV(m)]
    case CollectCpFee(a) => [BytesV(COLLECT_CP_FEES_INS), U64V(a)]
    case LockClmmPosition(m) => [BytesV(LOCK_CLMM_POSITION_INS), BoolV(m)]
    case CollectClmmFees => [BytesV(COLLECT_CLMM_FEES_INS)]
  }

  /** The instruction data the client sends for ix (`try_to_vec` of the struct). */
  function Serialize(ix: LockInstruction): (r: seq<Byte>)
    ensures |r| == SumWidths(InstructionLayout(ix))
    ensures |r| >= 8 && r[..8] == InstructionDiscriminator(ix)
  {
    var vs := InstructionFields(ix);
    EncodeFieldsCons(vs[0], vs[1..]);
    assert vs == [vs[0]] + vs[1..];
    EncodeFields(vs)
  }

  /** `LockCpLiquidityInstruction::serialize_ix` */
  function SerializeLockCpLiquidityIx(lpAmount: U64, withMetadata: bool): (r: seq<Byte>)
    ensures |r| == 8 + 8 + 1
    ensures r[..8] == LOCK_CP_LIQUIDITY_INS
    ensures LeValue(r[8..16]) == lpAmount
    ensures r[16] == BoolByte(withMetadata)
  {
    var ix := LockCpLiquidity(lpAmount, withMetadata);
    var vs := InstructionFields(ix);
    EncodeFieldsCons(vs[0], vs[1..]);
    EncodeFieldsCons(vs[1], vs[2..]);
    EncodeFieldsCons(vs[2], []);
    assert vs == [vs[0]] + ([vs[1]] + ([vs[2]] + []));
    Pow256Widths();
    LeValueOfLeBytes(lpAmount, 8);
    assert Serialize(ix) == LOCK_CP_LIQUIDITY_INS + LeBytes(lpAmount, 8) + [BoolByte(withMetadata)];
    Serialize(ix)
  }

  /** `CollectCpFeeInstruction::serialize_ix` */
  function SerializeCollectCpFeeIx(feeLpAmount: U64): (r: seq<Byte>)
    ensures |r| == 8 + 8
    ensures r[..8] == COLLECT_CP_FEES_INS
    ensures LeValue(r[8..]) == feeLpAmount
  {
    var ix := CollectCpFee(feeLpAmount);
    var vs := InstructionFields(ix);
    EncodeFieldsCons(vs[0], vs[1..]);
    EncodeFieldsCons(vs[1], []);
    assert vs == [vs[0]] + ([vs[1]] + []);
    Pow256Widths();
    LeValueOfLeBytes(feeLpAmount, 8);
    assert Serialize(ix) == COLLECT_CP_FEES_INS + LeBytes(feeLpAmount, 8);
    Serialize(ix)
  }

  /** `LockClmmPositionInstruction::serialize_ix` */
  function SerializeLockClmmPositionIx(withMetadata: bool): (r: seq<Byte>)
    ensures |r| == 8 + 1
    ensures r[..8] == LOCK_CLMM_POSITION_INS
    ensures r[8] == BoolByte(withMetadata)
  {
    var ix := LockClmmPosition(withMetadata);
    var vs := InstructionFields(ix);
    EncodeFieldsCons(vs[0], vs[1..]);
    EncodeFieldsCons(vs[1], []);
    assert vs == [vs[0]] + ([vs[1]] + []);
    assert Serialize(ix) == LOCK_CLMM_POSITION_INS + [BoolByte(withMetadata)];
    Serialize(ix)
  }

  /** `CollectClmmFeesInstruction::serialize_ix` */
  function SerializeCollectClmmFeesIx(): (r: seq<Byte>)
    ensures r == COLLECT_CLMM_FEES_INS
  {
    var ix := CollectClmmFees;
    var vs := InstructionFields(ix);
    EncodeFieldsCons(vs[0], []);
    assert vs == [vs[0]] + [];
    Serialize(ix)
  }

  /**
    A reference reader for the payload format, the inverse of the encoders above:
    it selects the instruction by its discriminator, then reads the whole slice
    with Borsh's rules (exact length, boolean byte 0 or 1). The client itself never
    reads payloads; the derived deserializer of each struct would accept any 8
    bytes as its discriminator field.
  */
  function ParseInstruction(data: seq<Byte>): (r: Option<LockInstruction>)
    ensures r.Some? ==> Serialize(r.value) == data
  {
    if |data| < 8 then None
    else
      var disc := data[..8];
      if disc == LOCK_CP_LIQUIDITY_INS then
        match DecodeFields(LOCK_CP_LIQUIDITY_LAYOUT, data)
        case None => None
        case Some(vs) => ParsedFields(LockCpLiquidity(vs[1].u, vs[2].b), vs, data); Some(LockCpLiquidity(vs[1].u, vs[2].b))
      else if disc == COLLECT_CP_FEES_INS then
        match DecodeFields(COLLECT_CP_FEE_LAYOUT, data)
        case None => None
        case Some(vs) => ParsedFields(CollectCpFee(vs[1].u), vs, data); Some(CollectCpFee(vs[1].u))
      else if disc == LOCK_CLMM_POSITION_INS then
        match DecodeFields(LOCK_CLMM_POSITION_LAYOUT, data)
        case None => None
        case Some(vs) => ParsedFields(LockClmmPosition(vs[1].b), vs, data); Some(LockClmmPosition(vs[1].b))
      else if disc == COLLECT_CLMM_FEES_INS then
        match DecodeFields(COLLECT_CLMM_FEES_LAYOUT, data)
        case None => None
        case Some(vs) => ParsedFields(CollectClmmFees, vs, data); Some(CollectClmmFees)
      else None
  }

  /** Decoded fields that fit ix's layout, carry ix's discriminator and ix's arguments are ix's fields. */
  lemma ParsedFields(ix: LockInstruction, vs: seq<FieldValue>, data: seq<Byte>)
    requires KindsOf(vs) == InstructionLayout(ix) && EncodeFields(vs) == data
    requires |data| >= 8 && data[..8] == InstructionDiscriminator(ix)
    requires ix.LockCpLiquidity? ==> ix.lpAmount == vs[1].u && ix.withMetadata == vs[2].b
    requires ix.CollectCpFee? ==> ix.feeLpAmount == vs[1].u
    requires ix.LockClmmPosition? ==> ix.withMetadata == vs[1].b
    ensures Serialize(ix) == data
  {
    EncodeFieldsCons(vs[0], vs[1..]);
    assert vs == [vs[0]] + vs[1..];
    assert vs[0] == BytesV(InstructionDiscriminator(ix));
    var fields := InstructionFields(ix);
    assert |fields| == |vs|;
    forall i | 0 <= i < |vs| ensures fields[i] == vs[i] {
      assert KindOf(vs[i]) == InstructionLayout(ix)[i];
    }
    assert fields == vs;
  }

  /** Parsing what the client serialized gives back the same instruction and arguments. */
  lemma ParseSerialize(ix: LockInstruction)
    ensures ParseInstruction(Serialize(ix)) == Some(ix)
  {
    DecodeEncodeFields(InstructionFields(ix));
  }

  /** No two instruction kinds share a discriminator, nor with the two account records. */
  lemma DiscriminatorsDistinct()
    ensures |{LOCK_CLMM_POSITION_INS, COLLECT_CLMM_FEES_INS, LOCK_CP_LIQUIDITY_INS, COLLECT_CP_FEES_INS,
              LOCKED_CP_LIQUIDITY_DISCRIMINATOR, LOCKED_CLMM_POSITION_DISCRIMINATOR}| == 6
  {
  }

  /** The first 8 bytes of a payload determine which instruction it is. */
  lemma PrefixDeterminesKind(ix1: LockInstruction, ix2: LockInstruction)
    requires Serialize(ix1)[..8] == Serialize(ix2)[..8]
    ensures ix1.LockCpLiquidity? == ix2.LockCpLiquidity?
    ensures ix1.CollectCpFee? == ix2.CollectCpFee?
    ensures ix1.LockClmmPosition? == ix2.LockClmmPosition?
    ensures ix1.CollectClmmFees? == ix2.CollectClmmFees?
  {
  }

  // ---------------------------------------------------------------------------
  // Account records

  datatype DecodeError = DataLenMismatch | DiscriminatorMismatch

  /** The `[u64; 8]` reserved tail of both records. */
  type Padding = s: seq<U64> | |s| == 8 witness [0, 0, 0, 0, 0, 0, 0, 0]

  const PADDING_LAYOUT: seq<FieldKind> := [U64K, U64K, U64K, U64K, U64K, U64K, U64K, U64K]

  lemma PaddingWidth()
    ensures SumWidths(PADDING_LAYOUT) == 8 * 8
    ensures NoBool(PADDING_LAYOUT)
  {
    U64sWidth(PADDING_LAYOUT);
  }

  /** Appending the padding block adds its 64 bytes and no boolean field. */
  lemma PaddedWidth(head: seq<FieldKind>)
    requires NoBool(head)
    ensures SumWidths(head + PADDING_LAYOUT) == SumWidths(head) + 8 * 8
    ensures NoBool(head + PADDING_LAYOUT)
  {
    SumWidthsAppend(head, PADDING_LAYOUT);
    PaddingWidth();
  }

  function PaddingFields(p: Padding): seq<FieldValue> {
    [U64V(p[0]), U64V(p[1]), U64V(p[2]), U64V(p[3]), U64V(p[4]), U64V(p[5]), U64V(p[6]), U64V(p[7])]
  }

  function PaddingOf(vs: seq<FieldValue>): (p: Padding)
    requires KindsOf(vs) == PADDING_LAYOUT
  {
    [vs[0].u, vs[1].u, vs[2].u, vs[3].u, vs[4].u, vs[5].u, vs[6].u, vs[7].u]
  }

  lemma PaddingRoundTrip(p: Padding, vs: seq<FieldValue>)
    ensures KindsOf(PaddingFields(p)) == PADDING_LAYOUT
    ensures PaddingOf(PaddingFields(p)) == p
    ensures KindsOf(vs) == PADDING_LAYOUT ==> PaddingFields(PaddingOf(vs)) == vs
  {
    if KindsOf(vs) == PADDING_LAYOUT {
      forall i | 0 <= i < 8 ensures vs[i] == U64V(vs[i].u) {
        assert KindOf(vs[i]) == PADDING_LAYOUT[i];
      }
    }
  }

  /** `LockedCpLiquidityState` */
  datatype LockedCpLiquidityState = LockedCpLiquidityState(
    lockedLpAmount: U64,
    claimedLpAmount: U64,
    unclaimedLpAmount: U64,
    lastLp: U64,
    lastK: U128,
    recentEpoch: U64,
    poolId: Pubkey,
    feeNftMint: Pubkey,
    lockedOwner: Pubkey,
    lockedLpMint: Pubkey,
    padding: Padding)

  const LOCKED_CP_LIQUIDITY_LEN: nat := 8 + 4 * 8 + 16 + 8 + 32 * 4 + 8 * 8
  const LOCKED_CP_LIQUIDITY_DISCRIMINATOR: Discriminator := [25, 10, 238, 197, 207, 234, 73, 22]

  const LOCKED_CP_LIQUIDITY_HEAD: seq<FieldKind> :=
    [U64K, U64K, U64K, U64K, U128K, U64K, BytesK(32), BytesK(32), BytesK(32), BytesK(32)]
  const LOCKED_CP_LIQUIDITY_LAYOUT: seq<FieldKind> := LOCKED_CP_LIQUIDITY_HEAD + PADDING_LAYOUT

  function CpStateFields(st: LockedCpLiquidityState): seq<FieldValue> {
    [U64V(st.lockedLpAmount), U64V(st.claimedLpAmount), U64V(st.unclaimedLpAmount), U64V(st.lastLp),
     U128V(st.lastK), U64V(st.recentEpoch),
     BytesV(st.poolId), BytesV(st.feeNftMint), BytesV(st.lockedOwner), BytesV(st.lockedLpMint)]
    + PaddingFields(st.padding)
  }

  function CpStateOf(vs: seq<FieldValue>): LockedCpLiquidityState
    requires KindsOf(vs) == LOCKED_CP_LIQUIDITY_LAYOUT
  {
    assert KindsOf(vs[10..]) == PADDING_LAYOUT;
    LockedCpLiquidityState(vs[0].u, vs[1].u, vs[2].u, vs[3].u, vs[4].w, vs[5].u,
      vs[6].bytes, vs[7].bytes, vs[8].bytes, vs[9].bytes, PaddingOf(vs[10..]))
  }

  lemma CpStateFieldsKinds(st: LockedCpLiquidityState)
    ensures KindsOf(CpStateFields(st)) == LOCKED_CP_LIQUIDITY_LAYOUT
    ensures CpStateOf(CpStateFields(st)) == st
  {
    var fs := CpStateFields(st);
    PaddingRoundTrip(st.padding, []);
    assert fs[10..] == PaddingFields(st.padding);
    assert KindsOf(fs) == LOCKED_CP_LIQUIDITY_HEAD + KindsOf(fs[10..]);
  }

  lemma CpStateOfFields(vs: seq<FieldValue>)
    requires KindsOf(vs) == LOCKED_CP_LIQUIDITY_LAYOUT
    ensures CpStateFields(CpStateOf(vs)) == vs
  {
    var fs := CpStateFields(CpStateOf(vs));
    assert KindsOf(vs[10..]) == PADDING_LAYOUT;
    PaddingRoundTrip(PaddingOf(vs[10..]), vs[10..]);
    assert fs[10..] == vs[10..];
    forall i | 0 <= i < 10 ensures fs[i] == vs[i] {
      assert KindOf(vs[i]) == LOCKED_CP_LIQUIDITY_LAYOUT[i];
    }
    assert forall i | 10 <= i < |vs| :: fs[i] == fs[10..][i - 10];
  }

  /** The bytes the lock program stores for a liquidity record: discriminator, then the fields. */
  function LockedCpLiquidityBytes(st: LockedCpLiquidityState): (r: seq<Byte>)
    ensures |r| == LOCKED_CP_LIQUIDITY_LEN
    ensures r[..8] == LOCKED_CP_LIQUIDITY_DISCRIMINATOR
  {
    CpStateFieldsKinds(st);
    CpLayoutWidth();
    LOCKED_CP_LIQUIDITY_DISCRIMINATOR + EncodeFields(CpStateFields(st))
  }

  /** `LockedCpLiquidityState::deserialize_account`, with the two panics as error values. */
  function DeserializeLockedCpLiquidity(data: seq<Byte>): (r: Result<LockedCpLiquidityState, DecodeError>)
    ensures |data| != LOCKED_CP_LIQUIDITY_LEN ==> r == Failure(DataLenMismatch)
    ensures |data| == LOCKED_CP_LIQUIDITY_LEN && data[..8] != LOCKED_CP_LIQUIDITY_DISCRIMINATOR
            ==> r == Failure(DiscriminatorMismatch)
    ensures r.Success? <==> |data| == LOCKED_CP_LIQUIDITY_LEN && data[..8] == LOCKED_CP_LIQUIDITY_DISCRIMINATOR
    ensures r.Success? ==> LockedCpLiquidityBytes(r.value) == data
  {
    if |data| != LOCKED_CP_LIQUIDITY_LEN then Failure(DataLenMismatch)
    else if data[..8] != LOCKED_CP_LIQUIDITY_DISCRIMINATOR then Failure(DiscriminatorMismatch)
    else
      CpLayoutWidth();
      DecodeFieldsTotal(LOCKED_CP_LIQUIDITY_LAYOUT, data[8..]);
      var vs := DecodeFields(LOCKED_CP_LIQUIDITY_LAYOUT, data[8..]).value;
      CpStateOfFields(vs);
      assert data == data[..8] + data[8..];
      Success(CpStateOf(vs))
  }

  /** The field widths add up to the record length minus the discriminator, and no field is a bool. */
  lemma CpLayoutWidth()
    ensures SumWidths(LOCKED_CP_LIQUIDITY_LAYOUT) == LOCKED_CP_LIQUIDITY_LEN - 8
    ensures NoBool(LOCKED_CP_LIQUIDITY_LAYOUT)
  {
    PaddedWidth(LOCKED_CP_LIQUIDITY_HEAD);
  }

  /** Every liquidity record written with the declared layout reads back field for field. */
  lemma LockedCpLiquidityRoundTrip(st: LockedCpLiquidityState)
    ensures DeserializeLockedCpLiquidity(LockedCpLiquidityBytes(st)) == Success(st)
  {
    var fs := CpStateFields(st);
    CpStateFieldsKinds(st);
    DecodeEncodeFields(fs);
    var data := LockedCpLiquidityBytes(st);
    assert data[8..] == EncodeFields(fs);
  }

  /** `LockedClmmPositionState` */
  datatype LockedClmmPositionState = LockedClmmPositionState(
    bump: Bump,
    positionOwner: Pubkey,
    poolId: Pubkey,
    positionId: Pubkey,
    lockedNftAccount: Pubkey,
    feeNftMint: Pubkey,
    recentEpoch: U64,
    padding: Padding)

  /** The `[u8; 1]` bump field. */
  type Bump = s: seq<Byte> | |s| == 1 witness [0]

  const LOCKED_CLMM_POSITION_LEN: nat := 8 + 1 + 32 * 5 + 8 + 8 * 8
  const LOCKED_CLMM_POSITION_DISCRIMINATOR: Discriminator := [52, 23, 5, 7, 170, 90, 108, 213]

  const LOCKED_CLMM_POSITION_HEAD: seq<FieldKind> :=
    [BytesK(1), BytesK(32), BytesK(32), BytesK(32), BytesK(32), BytesK(32), U64K]
  const LOCKED_CLMM_POSITION_LAYOUT: seq<FieldKind> := LOCKED_CLMM_POSITION_HEAD + PADDING_LAYOUT

  function ClmmStateFields(st: LockedClmmPositionState): seq<FieldValue> {
    [BytesV(st.bump), BytesV(st.positionOwner), BytesV(st.poolId), BytesV(st.positionId),
     BytesV(st.lockedNftAccount), BytesV(st.feeNftMint), U64V(st.recentEpoch)]
    + PaddingFields(st.padding)
  }

  function ClmmStateOf(vs: seq<FieldValue>): LockedClmmPositionState
    requires KindsOf(vs) == LOCKED_CLMM_POSITION_LAYOUT
  {
    assert KindsOf(vs[7..]) == PADDING_LAYOUT;
    LockedClmmPositionState(vs[0].bytes, vs[1].bytes, vs[2].bytes, vs[3].bytes, vs[4].bytes,
      vs[5].bytes, vs[6].u, PaddingOf(vs[7..]))
  }

  lemma ClmmStateFieldsKinds(st: LockedClmmPositionState)
    ensures KindsOf(ClmmStateFields(st)) == LOCKED_CLMM_POSITION_LAYOUT
    ensures ClmmStateOf(ClmmStateFields(st)) == st
  {
    var fs := ClmmStateFields(st);
    PaddingRoundTrip(st.padding, []);
    assert fs[7..] == PaddingFields(st.padding);
    assert KindsOf(fs) == LOCKED_CLMM_POSITION_HEAD + KindsOf(fs[7..]);
  }

  lemma ClmmStateOfFields(vs: seq<FieldValue>)
    requires KindsOf(vs) == LOCKED_CLMM_POSITION_LAYOUT
    ensures ClmmStateFields(ClmmStateOf(vs)) == vs
  {
    var fs := ClmmStateFields(ClmmStateOf(vs));
    assert KindsOf(vs[7..]) == PADDING_LAYOUT;
    PaddingRoundTrip(PaddingOf(vs[7..]), vs[7..]);
    assert fs[7..] == vs[7..];
    forall i | 0 <= i < 7 ensures fs[i] == vs[i] {
      assert KindOf(vs[i]) == LOCKED_CLMM_POSITION_LAYOUT[i];
    }
    assert forall i | 7 <= i < |vs| :: fs[i] == fs[7..][i - 7];
  }

  /** The bytes the lock program stores for a position record: discriminator, then the fields. */
  function LockedClmmPositionBytes(st: LockedClmmPositionState): (r: seq<Byte>)
    ensures |r| == LOCKED_CLMM_POSITION_LEN
    ensures r[..8] == LOCKED_CLMM_POSITION_DISCRIMINATOR
  {
    ClmmStateFieldsKinds(st);
    ClmmLayoutWidth();
    LOCKED_CLMM_POSITION_DISCRIMINATOR + EncodeFields(ClmmStateFields(st))
  }

  /** `LockedClmmPositionState::deserialize_account`, with the two panics as error values. */
  function DeserializeLockedClmmPosition(data: seq<Byte>): (r: Result<LockedClmmPositionState, DecodeError>)
    ensures |data| != LOCKED_CLMM_POSITION_LEN ==> r == Failure(DataLenMismatch)
    ensures |data| == LOCKED_CLMM_POSITION_LEN && data[..8] != LOCKED_CLMM_POSITION_DISCRIMINATOR
            ==> r == Failure(DiscriminatorMismatch)
    ensures r.Success? <==> |data| == LOCKED_CLMM_POSITION_LEN && data[..8] == LOCKED_CLMM_POSITION_DISCRIMINATOR
    ensures r.Success? ==> LockedClmmPositionBytes(r.value) == data
  {
    if |data| != LOCKED_CLMM_POSITION_LEN then Failure(DataLenMismatch)
    else if data[..8] != LOCKED_CLMM_POSITION_DISCRIMINATOR then Failure(DiscriminatorMismatch)
    else
      ClmmLayoutWidth();
      DecodeFieldsTotal(LOCKED_CLMM_POSITION_LAYOUT, data[8..]);
      var vs := DecodeFields(LOCKED_CLMM_POSITION_LAYOUT, data[8..]).value;
      ClmmStateOfFields(vs);
      assert data == data[..8] + data[8..];
      Success(ClmmStateOf(vs))
  }

  /** The field widths add up to the record length minus the discriminator, and no field is a bool. */
  lemma ClmmLayoutWidth()
    ensures SumWidths(LOCKED_CLMM_POSITION_LAYOUT) == LOCKED_CLMM_POSITION_LEN - 8
    ensures NoBool(LOCKED_CLMM_POSITION_LAYOUT)
  {
    PaddedWidth(LOCKED_CLMM_POSITION_HEAD);
  }

  /** Every position record written with the declared layout reads back field for field. */
  lemma LockedClmmPositionRoundTrip(st: LockedClmmPositionState)
    ensures DeserializeLockedClmmPosition(LockedClmmPositionBytes(st)) == Success(st)
  {
    var fs := ClmmStateFields(st);
    ClmmStateFieldsKinds(st);
    DecodeEncodeFields(fs);
    var data := LockedClmmPositionBytes(st);
    assert data[8..] == EncodeFields(fs);
  }

  /** An all-zero blob of either record's length fails the discriminator check; one byte short fails the length check. */
  lemma MalformedBlobsRejected()
    ensures DeserializeLockedCpLiquidity(seq(LOCKED_CP_LIQUIDITY_LEN, _ => 0)) == Failure(DiscriminatorMismatch)
    ensures DeserializeLockedClmmPosition(seq(LOCKED_CLMM_POSITION_LEN, _ => 0)) == Failure(DiscriminatorMismatch)
    ensures DeserializeLockedClmmPosition(seq(LOCKED_CLMM_POSITION_LEN - 1, _ => 0)) == Failure(DataLenMismatch)
    ensures DeserializeLockedCpLiquidity(seq(LOCKED_CP_LIQUIDITY_LEN - 1, _ => 0)) == Failure(DataLenMismatch)
  {
    var z: seq<Byte> := seq(LOCKED_CP_LIQUIDITY_LEN, _ => 0);
    assert z[..8][0] != LOCKED_CP_LIQUIDITY_DISCRIMINATOR[0];
    var y: seq<Byte> := seq(LOCKED_CLMM_POSITION_LEN, _ => 0);
    assert y[..8][0] != LOCKED_CLMM_POSITION_DISCRIMINATOR[0];
  }

  /** A record of one kind is never accepted as the other kind. */
  lemma CrossKindRejected(cp: LockedCpLiquidityState, clmm: LockedClmmPositionState, data: seq<Byte>)
    ensures DeserializeLockedCpLiquidity(LockedClmmPositionBytes(clmm)) == Failure(DataLenMismatch)
    ensures DeserializeLockedClmmPosition(LockedCpLiquidityBytes(cp)) == Failure(DataLenMismatch)
    ensures |data| == LOCKED_CP_LIQUIDITY_LEN && data[..8] == LOCKED_CLMM_POSITION_DISCRIMINATOR
            ==> DeserializeLockedCpLiquidity(data) == Failure(DiscriminatorMismatch)
    ensures |data| == LOCKED_CLMM_POSITION_LEN && data[..8] == LOCKED_CP_LIQUIDITY_DISCRIMINATOR
            ==> DeserializeLockedClmmPosition(data) == Failure(DiscriminatorMismatch)
  {
  }
}
