/** Opcodes and their classification. An opcode is any byte. */
module Opcodes {
  import opened Outcomes
  import opened ScriptTypes

  datatype Ordinary =
    OpVerify | Op2Drop | Op2Dup | Op3Dup | Op2Over | Op2Rot | Op2Swap | OpDrop | OpDup | OpNip
    | OpOver | OpPick | OpRoll | OpRot | OpSwap | OpTuck | OpIfDup | OpDepth | OpSize |
    OpEqual | OpEqualVerify | Op1Add | Op1Sub | OpNegate | OpAbs | OpNot | Op0NotEqual | OpAdd
    | OpSub | OpBoolAnd | OpBoolOr | OpNumEqual | OpNumEqualVerify | OpNumNotEqual |
    OpLessThan | OpGreaterThan | OpLessThanOrEqual | OpGreaterThanOrEqual | OpMin | OpMax |
    OpWithin | OpRipemd160 | OpSha1 | OpSha256 | OpHash160 | OpHash256

  datatype ControlFlow = OpIf | OpNotIf | OpElse | OpEndIf | OpCodeSeparator
  datatype AltStackOp = OpToAltStack | OpFromAltStack
  datatype SignatureOp = OpCheckSig | OpCheckSigVerify | OpCheckMultisig | OpCheckMultisigVerify
  datatype PushDataOp = OpPushData1 | OpPushData2 | OpPushData4
  datatype TimeLockOp = OpCltv | OpCsv

  datatype Class =
    | PushNum(num: int)
    | PushBytesOp(size: nat)
    | PushData(pushData: PushDataOp)
    | ReturnOp
    | IllegalClass
    | NoOp
    | Control(control: ControlFlow)
    | AltStack(altStack: AltStackOp)
    | Signature(signature: SignatureOp)
    | TimeLockClass(timeLock: TimeLockOp)
    | OrdinaryClass(ordinary: Ordinary)

  const OP_FALSE: Byte := 0x00
  const OP_PUSHDATA1: Byte := 0x4c
  const OP_PUSHDATA2: Byte := 0x4d
  const OP_PUSHDATA4: Byte := 0x4e
  const OP_PUSHNUM_NEG1: Byte := 0x4f
  const OP_TRUE: Byte := 0x51
  const OP_IF: Byte := 0x63
  const OP_NOTIF: Byte := 0x64
  const OP_ELSE: Byte := 0x67
  const OP_ENDIF: Byte := 0x68
  const OP_VERIFY: Byte := 0x69
  const OP_EQUAL: Byte := 0x87
  const OP_EQUALVERIFY: Byte := 0x88
  const OP_NUMEQUAL: Byte := 0x9c
  const OP_NUMEQUALVERIFY: Byte := 0x9d
  const OP_CODESEPARATOR: Byte := 0xab
  const OP_CHECKSIG: Byte := 0xac
  const OP_CHECKSIGVERIFY: Byte := 0xad
  const OP_CHECKMULTISIG: Byte := 0xae
  const OP_CHECKMULTISIGVERIFY: Byte := 0xaf

  function OrdinaryFrom(b: Byte): Option<Ordinary> {
    match b
    case 0x69 => Some(OpVerify)
    case 0x6d => Some(Op2Drop)
    case 0x6e => Some(Op2Dup)
    case 0x6f => Some(Op3Dup)
    case 0x70 => Some(Op2Over)
    case 0x71 => Some(Op2Rot)
    case 0x72 => Some(Op2Swap)
    case 0x75 => Some(OpDrop)
    case 0x76 => Some(OpDup)
    case 0x77 => Some(OpNip)
    case 0x78 => Some(OpOver)
    case 0x79 => Some(OpPick)
    case 0x7a => Some(OpRoll)
    case 0x7b => Some(OpRot)
    case 0x7c => Some(OpSwap)
    case 0x7d => Some(OpTuck)
    case 0x73 => Some(OpIfDup)
    case 0x74 => Some(OpDepth)
    case 0x82 => Some(OpSize)
    case 0x87 => Some(OpEqual)
    case 0x88 => Some(OpEqualVerify)
    case 0x8b => Some(Op1Add)
    case 0x8c => Some(Op1Sub)
    case 0x8f => Some(OpNegate)
    case 0x90 => Some(OpAbs)
    case 0x91 => Some(OpNot)
    case 0x92 => Some(Op0NotEqual)
    case 0x93 => Some(OpAdd)
    case 0x94 => Some(OpSub)
    case 0x9a => Some(OpBoolAnd)
    case 0x9b => Some(OpBoolOr)
    case 0x9c => Some(OpNumEqual)
    case 0x9d => Some(OpNumEqualVerify)
    case 0x9e => Some(OpNumNotEqual)
    case 0x9f => Some(OpLessThan)
    case 0xa0 => Some(OpGreaterThan)
    case 0xa1 => Some(OpLessThanOrEqual)
    case 0xa2 => Some(OpGreaterThanOrEqual)
    case 0xa3 => Some(OpMin)
    case 0xa4 => Some(OpMax)
    case 0xa5 => Some(OpWithin)
    case 0xa6 => Some(OpRipemd160)
    case 0xa7 => Some(OpSha1)
    case 0xa8 => Some(OpSha256)
    case 0xa9 => Some(OpHash160)
    case 0xaa => Some(OpHash256)
    case _ => None
  }

  function ControlFrom(b: Byte): Option<ControlFlow> {
    match b
    case 0x63 => Some(OpIf)
    case 0x64 => Some(OpNotIf)
    case 0x67 => Some(OpElse)
    case 0x68 => Some(OpEndIf)
    case 0xab => Some(OpCodeSeparator)
    case _ => None
  }

  function PushDataFrom(b: Byte): Option<PushDataOp> {
    match b
    case 0x4c => Some(OpPushData1)
    case 0x4d => Some(OpPushData2)
    case 0x4e => Some(OpPushData4)
    case _ => None
  }

  function SignatureFrom(b: Byte): Option<SignatureOp> {
    match b
    case 0xac => Some(OpCheckSig)
    case 0xad => Some(OpCheckSigVerify)
    case 0xae => Some(OpCheckMultisig)
    case 0xaf => Some(OpCheckMultisigVerify)
    case _ => None
  }

  function AltStackFrom(b: Byte): Option<AltStackOp> {
    match b
    case 0x6b => Some(OpToAltStack)
    case 0x6c => Some(OpFromAltStack)
    case _ => None
  }

  function TimeLockFrom(b: Byte): Option<TimeLockOp> {
    match b
    case 0xb1 => Some(OpCltv)
    case 0xb2 => Some(OpCsv)
    case _ => None
  }

  /** The 17 disabled opcodes. */
  predicate IsIllegal(b: Byte) {
    b in {0x65, 0x66, 0x7e, 0x7f, 0x80, 0x81, 0x83, 0x84, 0x85, 0x86, 0x8d, 0x8e,
          0x95, 0x96, 0x97, 0x98, 0x99}
  }

  /** The ten numbered no-ops include the two time locks. */
  predicate IsNoOp(b: Byte) {
    b == 0x61 || 0xb0 <= b <= 0xb9
  }

  predicate IsReturn(b: Byte) {
    b in {0x50, 0x62, 0x6a, 0x89, 0x8a} || b >= 0xba
  }

  /**
   `All::classify`. Taking `.value` of the last lookup is only accepted because the categories
   cover every byte, which is what the source's `expect` relies on.
   */
  function Classify(b: Byte): Class {
    if IsIllegal(b) then IllegalClass
    else if TimeLockFrom(b).Some? then TimeLockClass(TimeLockFrom(b).value)
    else if IsNoOp(b) then NoOp
    else if IsReturn(b) then ReturnOp
    else if b == OP_PUSHNUM_NEG1 then PushNum(-1)
    else if 0x51 <= b <= 0x60 then PushNum(1 + b - 0x51)
    else if b <= 0x4b then PushBytesOp(b)
    else if OrdinaryFrom(b).Some? then OrdinaryClass(OrdinaryFrom(b).value)
    else if ControlFrom(b).Some? then Control(ControlFrom(b).value)
    else if PushDataFrom(b).Some? then PushData(PushDataFrom(b).value)
    else if SignatureFrom(b).Some? then Signature(SignatureFrom(b).value)
    else AltStack(AltStackFrom(b).value)
  }

  function OrdinaryCode(op: Ordinary): Byte {
    match op
    case OpVerify => 0x69
    case Op2Drop => 0x6d
    case Op2Dup => 0x6e
    case Op3Dup => 0x6f
    case Op2Over => 0x70
    case Op2Rot => 0x71
    case Op2Swap => 0x72
    case OpDrop => 0x75
    case OpDup => 0x76
    case OpNip => 0x77
    case OpOver => 0x78
    case OpPick => 0x79
    case OpRoll => 0x7a
    case OpRot => 0x7b
    case OpSwap => 0x7c
    case OpTuck => 0x7d
    case OpIfDup => 0x73
    case OpDepth => 0x74
    case OpSize => 0x82
    case OpEqual => 0x87
    case OpEqualVerify => 0x88
    case Op1Add => 0x8b
    case Op1Sub => 0x8c
    case OpNegate => 0x8f
    case OpAbs => 0x90
    case OpNot => 0x91
    case Op0NotEqual => 0x92
    case OpAdd => 0x93
    case OpSub => 0x94
    case OpBoolAnd => 0x9a
    case OpBoolOr => 0x9b
    case OpNumEqual => 0x9c
    case OpNumEqualVerify => 0x9d
    case OpNumNotEqual => 0x9e
    case OpLessThan => 0x9f
    case OpGreaterThan => 0xa0
    case OpLessThanOrEqual => 0xa1
    case OpGreaterThanOrEqual => 0xa2
    case OpMin => 0xa3
    case OpMax => 0xa4
    case OpWithin => 0xa5
    case OpRipemd160 => 0xa6
    case OpSha1 => 0xa7
    case OpSha256 => 0xa8
    case OpHash160 => 0xa9
    case OpHash256 => 0xaa
  }

  /** The byte of an opcode whose class determines it. */
  function ClassCode(c: Class): Option<int> {
    match c
    case PushNum(x) => Some(if x == -1 then 0x4f else x + 0x50)
    case PushBytesOp(n) => Some(n)
    case PushData(p) => Some(match p case OpPushData1 => 0x4c case OpPushData2 => 0x4d case OpPushData4 => 0x4e)
    case Control(cf) =>
      Some(match cf case OpIf => 0x63 case OpNotIf => 0x64 case OpElse => 0x67 case OpEndIf => 0x68
                    case OpCodeSeparator => 0xab)
    case AltStack(a) => Some(if a.OpToAltStack? then 0x6b else 0x6c)
    case Signature(s) =>
      Some(match s case OpCheckSig => 0xac case OpCheckSigVerify => 0xad case OpCheckMultisig => 0xae
                   case OpCheckMultisigVerify => 0xaf)
    case TimeLockClass(t) => Some(if t.OpCltv? then 0xb1 else 0xb2)
    case OrdinaryClass(op) => Some(OrdinaryCode(op))
    case _ => None
  }

  lemma OrdinaryInverts(b: Byte)
    ensures OrdinaryFrom(b).Some? ==> OrdinaryCode(OrdinaryFrom(b).value) == b
  {}

  /** Classification loses nothing but which no-op, return or disabled opcode a byte was. */
  lemma ClassifyInverts(b: Byte)
    ensures var c := Classify(b);
            if c.NoOp? || c.ReturnOp? || c.IllegalClass? then ClassCode(c).None?
            else ClassCode(c) == Some(b)
  {
    OrdinaryInverts(b);
  }

  /** The ordinary opcodes by their places among the bytes. */
  predicate IsOrdinary(b: Byte) {
    b in {0x69, 0x82, 0x87, 0x88, 0x8b, 0x8c} || 0x6d <= b <= 0x7d || 0x8f <= b <= 0x94 || 0x9a <= b <= 0xaa
  }

  lemma OrdinaryPlaces(b: Byte)
    ensures OrdinaryFrom(b).Some? <==> IsOrdinary(b)
  {}

  function Count(test: bool): nat {
    if test then 1 else 0
  }

  /** How many of the tests made by `Classify` a byte passes, each test taken by itself. */
  function TestsPassed(b: Byte): nat {
    Count(IsIllegal(b)) + Count(TimeLockFrom(b).Some?) + Count(IsNoOp(b)) + Count(IsReturn(b)) +
    Count(b == OP_PUSHNUM_NEG1) + Count(0x51 <= b <= 0x60) + Count(b <= 0x4b) +
    Count(OrdinaryFrom(b).Some?) + Count(ControlFrom(b).Some?) + Count(PushDataFrom(b).Some?) +
    Count(SignatureFrom(b).Some?) + Count(AltStackFrom(b).Some?)
  }

  /**
   Every byte passes one test, except that the time locks also pass the test for no-ops: only the
   order of these two tests matters, and the time lock is tried first.
   */
  lemma CategoriesPartition(b: Byte)
    ensures TestsPassed(b) == if TimeLockFrom(b).Some? then 2 else 1
    ensures TimeLockFrom(b).Some? ==> IsNoOp(b) && Classify(b) == TimeLockClass(TimeLockFrom(b).value)
  {
    OrdinaryPlaces(b);
  }

  // ----- the classes of single bytes

  lemma EqualClasses()
    ensures Classify(OP_EQUAL) == OrdinaryClass(OpEqual) && Classify(OP_EQUALVERIFY) == OrdinaryClass(OpEqualVerify)
    ensures Classify(OP_VERIFY) == OrdinaryClass(OpVerify)
  {}

  lemma NumEqualClasses()
    ensures Classify(OP_NUMEQUAL) == OrdinaryClass(OpNumEqual)
    ensures Classify(OP_NUMEQUALVERIFY) == OrdinaryClass(OpNumEqualVerify)
  {}

  lemma CheckSigClasses()
    ensures Classify(OP_CHECKSIG) == Signature(OpCheckSig) && Classify(OP_CHECKSIGVERIFY) == Signature(OpCheckSigVerify)
  {}

  lemma CheckMultisigClasses()
    ensures Classify(OP_CHECKMULTISIG) == Signature(OpCheckMultisig)
    ensures Classify(OP_CHECKMULTISIGVERIFY) == Signature(OpCheckMultisigVerify)
  {}

  lemma AltClasses()
    ensures Classify(0x6b) == AltStack(OpToAltStack) && Classify(0x6c) == AltStack(OpFromAltStack)
  {}

  lemma TimeLockClasses()
    ensures Classify(0xb1) == TimeLockClass(OpCltv) && Classify(0xb2) == TimeLockClass(OpCsv)
  {}

  lemma SeparatorClass()
    ensures Classify(0xab) == Control(OpCodeSeparator)
  {}

  /** Number of bytes that hold the length of a push. */
  function DataSizeBytes(p: PushDataOp): nat {
    match p
    case OpPushData1 => 1
    case OpPushData2 => 2
    case OpPushData4 => 4
  }

  /** Smallest length for which the form is the minimal one. */
  function DataSizeMin(p: PushDataOp): nat {
    match p
    case OpPushData1 => 76
    case OpPushData2 => 0x100
    case OpPushData4 => 0x1_0000
  }

  predicate OrdinaryIsVerify(op: Ordinary) {
    op.OpVerify? || op.OpEqualVerify? || op.OpNumEqualVerify?
  }

  predicate SignatureIsVerify(op: SignatureOp) {
    op.OpCheckSigVerify? || op.OpCheckMultisigVerify?
  }
}
