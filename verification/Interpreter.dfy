/**
 The meaning of scripts: what each instruction does to a machine of two stacks.

 Items are listed bottom first. The rearranging opcodes are given by one table of the items they
 take and the items they leave, the arithmetic ones by the numbers they compute.
 */
module Interpreter {
  import opened Outcomes
  import opened ScriptTypes
  import opened ScriptNumbers
  import opened Opcodes
  import opened ScriptCodec
  import opened ScriptContext
  import opened Multisig

  type Items = seq<Bytes>

  const I32_MAX: int := 0x7fff_ffff
  const U32_MAX: nat := 0xffff_ffff

  function BoolItem(b: bool): Bytes {
    ScriptInt(if b then 1 else 0)
  }

  // ----- rearranging opcodes

  /** Takes the top `arity` items and leaves the listed ones, numbered from the deepest taken. */
  datatype Shuffle = Shuffle(arity: nat, leaves: seq<nat>)

  function ShuffleOf(op: Ordinary): Option<Shuffle> {
    match op
    case OpVerify => Some(Shuffle(0, []))
    case OpDrop => Some(Shuffle(1, []))
    case Op2Drop => Some(Shuffle(2, []))
    case OpDup => Some(Shuffle(1, [0, 0]))
    case Op2Dup => Some(Shuffle(2, [0, 1, 0, 1]))
    case Op3Dup => Some(Shuffle(3, [0, 1, 2, 0, 1, 2]))
    case OpOver => Some(Shuffle(2, [0, 1, 0]))
    case Op2Over => Some(Shuffle(4, [0, 1, 2, 3, 0, 1]))
    case OpSwap => Some(Shuffle(2, [1, 0]))
    case Op2Swap => Some(Shuffle(4, [2, 3, 0, 1]))
    case Op2Rot => Some(Shuffle(6, [2, 3, 4, 5, 0, 1]))
    case OpNip => Some(Shuffle(2, [1]))
    case OpRot => Some(Shuffle(3, [1, 2, 0]))
    case OpTuck => Some(Shuffle(2, [1, 0, 1]))
    case _ => None
  }

  function Select(s: Items, picks: seq<nat>): Items
    requires forall k :: 0 <= k < |picks| ==> picks[k] < |s|
  {
    seq(|picks|, k requires 0 <= k < |picks| => s[picks[k]])
  }

  function ApplyShuffle(sh: Shuffle, s: Items): ScriptResult<Items>
    requires forall k :: 0 <= k < |sh.leaves| ==> sh.leaves[k] < sh.arity
  {
    if |s| < sh.arity then Err(NotEnoughElementsOnStack)
    else Ok(s[..|s| - sh.arity] + Select(s[|s| - sh.arity..], sh.leaves))
  }

  // ----- numbers

  function TopInt(s: Items): ScriptResult<int> {
    if s == [] then Err(NotEnoughElementsOnStack) else ReadScriptint(s[|s| - 1])
  }

  function Bit(b: bool): int {
    if b then 1 else 0
  }

  predicate IsUnary(op: Ordinary) {
    op.Op1Add? || op.Op1Sub? || op.OpNegate? || op.OpAbs? || op.OpNot? || op.Op0NotEqual?
  }

  function Unary(op: Ordinary, x: int): int
    requires IsUnary(op)
  {
    match op
    case Op1Add => x + 1
    case Op1Sub => x - 1
    case OpNegate => -x
    case OpAbs => if x < 0 then -x else x
    case OpNot => Bit(x == 0)
    case Op0NotEqual => Bit(x != 0)
  }

  predicate IsBinary(op: Ordinary) {
    op.OpAdd? || op.OpSub? || op.OpBoolAnd? || op.OpBoolOr? || op.OpNumEqual? || op.OpNumEqualVerify?
    || op.OpNumNotEqual? || op.OpLessThan? || op.OpGreaterThan? || op.OpLessThanOrEqual?
    || op.OpGreaterThanOrEqual? || op.OpMin? || op.OpMax?
  }

  function Binary(op: Ordinary, x: int, y: int): int
    requires IsBinary(op)
  {
    match op
    case OpAdd => x + y
    case OpSub => x - y
    case OpBoolAnd => Bit(x != 0 && y != 0)
    case OpBoolOr => Bit(x != 0 || y != 0)
    case OpNumEqual => Bit(x == y)
    case OpNumEqualVerify => Bit(x == y)
    case OpNumNotEqual => Bit(x != y)
    case OpLessThan => Bit(x < y)
    case OpGreaterThan => Bit(x > y)
    case OpLessThanOrEqual => Bit(x <= y)
    case OpGreaterThanOrEqual => Bit(x >= y)
    case OpMin => if x <= y then x else y
    case OpMax => if x > y then x else y
  }

  function ApplyUnary(op: Ordinary, s: Items): ScriptResult<Items>
    requires IsUnary(op)
  {
    var x :- TopInt(s);
    Ok(s[..|s| - 1] + [ScriptInt(Unary(op, x))])
  }

  function ApplyBinary(op: Ordinary, s: Items): ScriptResult<Items>
    requires IsBinary(op)
  {
    var y :- TopInt(s);
    var x :- TopInt(s[..|s| - 1]);
    Ok(s[..|s| - 2] + [ScriptInt(Binary(op, x, y))])
  }

  function ApplyWithin(s: Items): ScriptResult<Items> {
    var hi :- TopInt(s);
    var lo :- TopInt(s[..|s| - 1]);
    var x :- TopInt(s[..|s| - 2]);
    Ok(s[..|s| - 3] + [ScriptInt(Bit(lo <= x < hi))])
  }

  // ----- other ordinary opcodes

  /** A non-negative index below the top of the stack, popped off it. */
  function PopIndex(s: Items): ScriptResult<nat> {
    var i :- TopInt(s);
    if i < 0 then Err(InvalidOperand)
    else if |s| - 1 < i + 1 then Err(NotEnoughElementsOnStack)
    else Ok(i)
  }

  function ApplyPick(s: Items): ScriptResult<Items> {
    var i :- PopIndex(s);
    Ok(s[..|s| - 1] + [s[|s| - 2 - i]])
  }

  function ApplyRoll(s: Items): ScriptResult<Items> {
    var i :- PopIndex(s);
    var at := |s| - 2 - i;
    Ok(s[..at] + s[at + 1..|s| - 1] + [s[at]])
  }

  function ApplyEqual(s: Items): ScriptResult<Items> {
    if |s| < 2 then Err(NotEnoughElementsOnStack)
    else Ok(s[..|s| - 2] + [BoolItem(s[|s| - 2] == s[|s| - 1])])
  }

  /** Opcodes that look at the top item or the depth and push one more item, or none. */
  function ApplyQuery(op: Ordinary, s: Items): ScriptResult<Items>
    requires op.OpIfDup? || op.OpDepth? || op.OpSize?
  {
    if op.OpDepth? then
      if |s| < I32_MAX then Ok(s + [ScriptInt(|s|)]) else Err(NumericOverflow)
    else if s == [] then Err(NotEnoughElementsOnStack)
    else
      var top := s[|s| - 1];
      if op.OpIfDup? then Ok(if ReadScriptbool(top) then s + [top] else s)
      else if |top| < I32_MAX then Ok(s + [ScriptInt(|top|)])
      else Err(NumericOverflow)
  }

  predicate IsHash(op: Ordinary) {
    op.OpRipemd160? || op.OpSha1? || op.OpSha256? || op.OpHash160? || op.OpHash256?
  }

  function Hash(ctx: Context, op: Ordinary, d: Bytes): (r: Bytes)
    requires IsHash(op)
    ensures |r| == 20 || |r| == 32
  {
    match op
    case OpRipemd160 => ctx.ripemd160(d)
    case OpSha1 => ctx.sha1(d)
    case OpSha256 => ctx.sha256(d)
    case OpHash160 => ctx.ripemd160(ctx.sha256(d))
    case OpHash256 => ctx.sha256(ctx.sha256(d))
  }

  function ApplyHash(ctx: Context, op: Ordinary, s: Items): ScriptResult<Items>
    requires IsHash(op)
  {
    if s == [] then Err(NotEnoughElementsOnStack)
    else Ok(s[..|s| - 1] + [Hash(ctx, op, s[|s| - 1])])
  }

  /** An ordinary opcode before its possible verification. */
  function ApplyCore(ctx: Context, op: Ordinary, s: Items): ScriptResult<Items> {
    if ShuffleOf(op).Some? then ApplyShuffle(ShuffleOf(op).value, s)
    else if IsUnary(op) then ApplyUnary(op, s)
    else if IsBinary(op) then ApplyBinary(op, s)
    else if IsHash(op) then ApplyHash(ctx, op, s)
    else if op.OpWithin? then ApplyWithin(s)
    else if op.OpPick? then ApplyPick(s)
    else if op.OpRoll? then ApplyRoll(s)
    else if op.OpEqual? || op.OpEqualVerify? then ApplyEqual(s)
    else ApplyQuery(op, s)
  }

  /** Pops a true item, or fails. */
  function VerifyTop(s: Items): ScriptResult<Items> {
    if s == [] then Err(NotEnoughElementsOnStack)
    else if !ReadScriptbool(s[|s| - 1]) then Err(VerifyFail)
    else Ok(s[..|s| - 1])
  }

  function Apply(ctx: Context, op: Ordinary, s: Items): ScriptResult<Items> {
    var r :- ApplyCore(ctx, op, s);
    if OrdinaryIsVerify(op) then VerifyTop(r) else Ok(r)
  }

  // ----- signature opcodes

  function ApplyCheckSig(j: Judge, s: Items): ScriptResult<Items> {
    if |s| < 2 then Err(NotEnoughElementsOnStack)
    else
      var ok :- Greedy(j, [s[|s| - 2]], [s[|s| - 1]]);
      Ok(s[..|s| - 2] + [BoolItem(ok)])
  }

  /** The operands of a multi-signature check, and the stack below them. */
  datatype MultisigFrame = MultisigFrame(keys: seq<Bytes>, sigs: seq<Bytes>, rest: Items)

  /** Layout from the top: key count, keys, signature count, signatures. */
  function FrameOf(ctx: Context, s: Items): ScriptResult<MultisigFrame> {
    var nkey :- TopInt(s);
    if !(0 <= nkey <= ctx.maxPubkeys) then Err(PubkeyCount)
    else if |s| < nkey + 2 then Err(NotEnoughElementsOnStack)
    else
      var keysAt := |s| - 1 - nkey;
      var nsig :- ReadScriptint(s[keysAt - 1]);
      if !(0 <= nsig <= nkey) then Err(SigCount)
      else if keysAt - 1 < nsig then Err(NotEnoughElementsOnStack)
      else
        var sigsAt := keysAt - 1 - nsig;
        Ok(MultisigFrame(s[keysAt..|s| - 1], s[sigsAt..keysAt - 1], s[..sigsAt]))
  }

  /** Below the operands there must be an empty dummy item. */
  function ApplyCheckMultisig(j: Judge, s: Items): ScriptResult<Items> {
    var MultisigFrame(keys, sigs, rest) :- FrameOf(j.ctx, s);
    var ok :- Greedy(j, sigs, keys);
    if rest == [] then Err(NotEnoughElementsOnStack)
    else if rest[|rest| - 1] != [] then Err(NullDummy)
    else Ok(rest[..|rest| - 1] + [BoolItem(ok)])
  }

  function ApplySignature(j: Judge, op: SignatureOp, s: Items): ScriptResult<Items> {
    var r :- if op.OpCheckSig? || op.OpCheckSigVerify? then ApplyCheckSig(j, s) else ApplyCheckMultisig(j, s);
    if SignatureIsVerify(op) then VerifyTop(r) else Ok(r)
  }

  // ----- the machine

  datatype Machine = Machine(stack: Items, alt: Items, subscript: Bytes, codesep: nat, count: nat)

  /** The machine and the masks of the conditionals it is inside of, outermost first. */
  datatype State = State(m: Machine, masks: seq<bool>)

  predicate Executing(masks: seq<bool>) {
    false !in masks
  }

  predicate IsNesting(i: Instruction) {
    i.Op? && i.code in {OP_IF, OP_NOTIF, OP_ELSE, OP_ENDIF}
  }

  /** The size check and the instruction count that close every step. */
  function Settle(ctx: Context, m: Machine): ScriptResult<Machine> {
    if |m.stack| + |m.alt| > ctx.maxStackElements then Err(StackSize)
    else Ok(m.(count := if m.count < U32_MAX then m.count + 1 else m.count))
  }

  function PutStack(m: Machine, r: ScriptResult<Items>): ScriptResult<Machine> {
    var s :- r;
    Ok(m.(stack := s))
  }

  function ActTimeLock(ctx: Context, op: TimeLockOp, m: Machine): ScriptResult<Machine> {
    if m.stack == [] then Err(NotEnoughElementsOnStack)
    else
      var time :- ReadScriptintSize(m.stack[|m.stack| - 1], 5);
      if (if op.OpCltv? then ctx.checkLockTime(time) else ctx.checkSequence(time)) then Ok(m) else Err(TimeLock)
  }

  function ActAltStack(op: AltStackOp, m: Machine): ScriptResult<Machine> {
    match op
    case OpToAltStack =>
      if m.stack == [] then Err(NotEnoughElementsOnStack)
      else Ok(m.(stack := m.stack[..|m.stack| - 1], alt := m.alt + [m.stack[|m.stack| - 1]]))
    case OpFromAltStack =>
      if m.alt == [] then Err(NotEnoughElementsOnStack)
      else Ok(m.(alt := m.alt[..|m.alt| - 1], stack := m.stack + [m.alt[|m.alt| - 1]]))
  }

  function Separate(l: Located, m: Machine): Machine {
    m.(subscript := l.rest, codesep := m.count)
  }

  /** What a skipped instruction still does. */
  function ActSkipped(ctx: Context, l: Located, m: Machine): ScriptResult<Machine> {
    match l.instr
    case PushBytes(d) => if |d| > ctx.maxElementSize then Err(PushSize) else Ok(m)
    case Op(c) =>
      match Classify(c)
      case IllegalClass => Err(IllegalOp)
      case Control(OpCodeSeparator) => Ok(Separate(l, m))
      case _ => Ok(m)
  }

  /** What an executed instruction does; nesting opcodes are treated by `Step`. */
  function Act(ctx: Context, l: Located, m: Machine): ScriptResult<Machine> {
    match l.instr
    case PushBytes(d) =>
      if |d| > ctx.maxElementSize then Err(PushSize) else Ok(m.(stack := m.stack + [d]))
    case Op(c) =>
      match Classify(c)
      case IllegalClass => Err(IllegalOp)
      case ReturnOp => Err(VerifyFail)
      case PushNum(x) => Ok(m.(stack := m.stack + [ScriptInt(x)]))
      case AltStack(op) => ActAltStack(op, m)
      case Signature(op) => PutStack(m, ApplySignature(Judge(ctx, m.subscript, m.codesep), op, m.stack))
      case Control(OpCodeSeparator) => Ok(Separate(l, m))
      case TimeLockClass(op) => ActTimeLock(ctx, op, m)
      case OrdinaryClass(op) => PutStack(m, Apply(ctx, op, m.stack))
      case _ => Ok(m)
  }

  /** Whether the item on top makes OP_IF (or OP_NOTIF) take its first branch. */
  function Condition(ctx: Context, notIf: bool, m: Machine): ScriptResult<bool> {
    if m.stack == [] then Err(NotEnoughElementsOnStack)
    else
      var item := m.stack[|m.stack| - 1];
      if !ctx.enforceMinimalIf then Ok(ReadScriptbool(item) != notIf)
      else if item == [] then Ok(notIf)
      else if item == [1] then Ok(!notIf)
      else Err(InvalidOperand)
  }

  /** One plain instruction, executed or skipped. */
  function PlainStep(ctx: Context, l: Located, executing: bool, m: Machine): ScriptResult<Machine> {
    var m' :- if executing then Act(ctx, l, m) else ActSkipped(ctx, l, m);
    Settle(ctx, m')
  }

  /** Opening a conditional: the branch taken, and the machine with the condition popped. */
  function OpenStep(ctx: Context, notIf: bool, executing: bool, m: Machine): ScriptResult<(bool, Machine)> {
    var taken :- if executing then Condition(ctx, notIf, m) else Ok(false);
    var m' :- Settle(ctx, if executing then m.(stack := m.stack[..|m.stack| - 1]) else m);
    Ok((taken, m'))
  }

  /** One instruction of the flat program. */
  function Step(ctx: Context, l: Located, st: State): ScriptResult<State> {
    var State(m, masks) := st;
    if !IsNesting(l.instr) then
      var m' :- PlainStep(ctx, l, Executing(masks), m);
      Ok(State(m', masks))
    else if l.instr.code == OP_IF || l.instr.code == OP_NOTIF then
      var (taken, m') :- OpenStep(ctx, l.instr.code == OP_NOTIF, Executing(masks), m);
      Ok(State(m', masks + [taken]))
    else if masks == [] then Err(UnbalancedIfElse)
    else
      var m' :- Settle(ctx, m);
      var outer, top := masks[..|masks| - 1], masks[|masks| - 1];
      Ok(State(m', if l.instr.code == OP_ELSE then outer + [!top] else outer))
  }

  /** All instructions of the flat program, in order. */
  function RunBody(ctx: Context, body: seq<Located>, st: State): ScriptResult<State> {
    if body == [] then Ok(st)
    else
      var st' :- Step(ctx, body[0], st);
      RunBody(ctx, body[1..], st')
  }

  /** After the last instruction: a parse error, an unclosed conditional, or the final stack. */
  function Finish(failure: Option<Error>, st: State): ScriptResult<Items> {
    if failure.Some? then Err(failure.value)
    else if st.masks != [] then Err(UnbalancedIfElse)
    else Ok(st.m.stack)
  }

  function Resume(ctx: Context, data: Bytes, st: State): ScriptResult<Items> {
    var code := Decode(data, ctx.enforceMinimalPush);
    var st' :- RunBody(ctx, code.body, st);
    Finish(code.failure, st')
  }

  function Start(script: Bytes, items: Items): State {
    State(Machine(items, [], script, U32_MAX, 0), [])
  }

  /** `run_script` as a function. */
  function Run(ctx: Context, script: Bytes, items: Items): ScriptResult<Items> {
    if |script| > ctx.maxScriptSize then Err(ScriptSize)
    else Resume(ctx, script, Start(script, items))
  }

  // ----- facts about runs

  /** Parsing and executing one more instruction. */
  lemma ResumeUnfolds(ctx: Context, data: Bytes, st: State)
    ensures Resume(ctx, data, st) ==
            match ParseNext(data, ctx.enforceMinimalPush)
            case Finished => Finish(None, st)
            case Failed(e) => Err(e)
            case Item(instr, rest) =>
              var r := Step(ctx, Located(instr, rest), st);
              if r.Err? then Err(r.error) else Resume(ctx, rest, r.value)
  {
    match ParseNext(data, ctx.enforceMinimalPush)
    case Item(instr, rest) =>
      var body := Decode(data, ctx.enforceMinimalPush).body;
      assert body[0] == Located(instr, rest) && body[1..] == Decode(rest, ctx.enforceMinimalPush).body;
    case _ =>
  }

  /** Running a concatenation is running its parts one after the other. */
  lemma {:induction false} RunBodyAppend(ctx: Context, a: seq<Located>, b: seq<Located>, st: State)
    ensures RunBody(ctx, a + b, st) ==
            var r := RunBody(ctx, a, st);
            if r.Err? then r else RunBody(ctx, b, r.value)
  {
    if a == [] {
      assert a + b == b;
    } else {
      assert (a + b)[0] == a[0] && (a + b)[1..] == a[1..] + b;
      if Step(ctx, a[0], st).Ok? {
        RunBodyAppend(ctx, a[1..], b, Step(ctx, a[0], st).value);
      }
    }
  }

  lemma RunBodyCons(ctx: Context, l: Located, b: seq<Located>, st: State)
    ensures RunBody(ctx, [l] + b, st) ==
            var r := Step(ctx, l, st);
            if r.Err? then r else RunBody(ctx, b, r.value)
  {
    assert ([l] + b)[1..] == b;
  }
}
