/** The interpreter's mutable stacks. */
module InterpreterStacks {
  import opened Outcomes
  import opened ScriptTypes
  import opened ScriptNumbers
  import opened Interpreter

  /** The data stack, top at the end. */
  class Stack {
    var items: Items

    constructor (items: Items)
      ensures this.items == items
    {
      this.items := items;
    }

    method Pop() returns (r: ScriptResult<Bytes>)
      modifies this
      ensures if old(items) == [] then r == Err(NotEnoughElementsOnStack)
              else r == Ok(old(items)[|old(items)| - 1]) && items == old(items)[..|old(items)| - 1]
    {
      if items == [] {
        return Err(NotEnoughElementsOnStack);
      }
      r := Ok(items[|items| - 1]);
      items := items[..|items| - 1];
    }

    method PopBool() returns (r: ScriptResult<bool>)
      modifies this
      ensures match VerifyTop(old(items))
              case Ok(s) => r == Ok(true) && items == s
              case Err(VerifyFail) => r == Ok(false)
              case Err(e) => r == Err(e)
    {
      var item :- Pop();
      return Ok(ReadScriptbool(item));
    }

    /** Reads a number of at most four bytes, so one below 2^31 in magnitude. */
    method PopInt() returns (r: ScriptResult<I64>)
      modifies this
      ensures r == TopInt(old(items))
      ensures r.Ok? ==> old(items) != [] && items == old(items)[..|old(items)| - 1] && -TWO_31 < r.value < TWO_31
    {
      var item :- Pop();
      ReadScriptintRange(item);
      var x :- ReadScriptint(item);
      return Ok(x);
    }

    method Push(item: Bytes)
      modifies this
      ensures items == old(items) + [item]
    {
      items := items + [item];
    }

    method PushInt(x: I64)
      requires x != -TWO_63
      modifies this
      ensures items == old(items) + [ScriptInt(x)]
    {
      var item := BuildScriptint(x);
      Push(item);
    }

    method PushBool(b: bool)
      modifies this
      ensures items == old(items) + [BoolItem(b)]
    {
      PushInt(if b then 1 else 0);
    }

    /** The item `idx` places below the top. */
    method Top(idx: nat) returns (r: ScriptResult<Bytes>)
      ensures r == if |items| < idx + 1 then Err(NotEnoughElementsOnStack) else Ok(items[|items| - idx - 1])
    {
      if |items| < idx + 1 {
        return Err(NotEnoughElementsOnStack);
      }
      return Ok(items[|items| - idx - 1]);
    }

    /** The items `start..end` places below the top, deepest first. */
    method TopSlice(start: nat, end: nat) returns (r: ScriptResult<Items>)
      requires start <= end
      ensures r == if |items| < end then Err(NotEnoughElementsOnStack)
                   else Ok(items[|items| - end..|items| - start])
    {
      if |items| < end {
        return Err(NotEnoughElementsOnStack);
      }
      return Ok(items[|items| - end..|items| - start]);
    }

    method Drop(num: nat) returns (r: ScriptResult<()>)
      modifies this
      ensures if |old(items)| < num then r == Err(NotEnoughElementsOnStack)
              else r == Ok(()) && items == old(items)[..|old(items)| - num]
    {
      if |items| < num {
        return Err(NotEnoughElementsOnStack);
      }
      items := items[..|items| - num];
      return Ok(());
    }

    method Dup(start: nat, end: nat) returns (r: ScriptResult<()>)
      requires start <= end
      modifies this
      ensures if |old(items)| < end then r == Err(NotEnoughElementsOnStack)
              else r == Ok(()) && items == old(items) + old(items)[|old(items)| - end..|old(items)| - start]
    {
      var slice :- TopSlice(start, end);
      items := items + slice;
      return Ok(());
    }

    /** Exchanges the top `n` items with the next `n`. */
    method Swap(n: nat) returns (r: ScriptResult<()>)
      modifies this
      ensures var s := old(items);
              if |s| < 2 * n then r == Err(NotEnoughElementsOnStack)
              else r == Ok(()) && items == s[..|s| - 2 * n] + s[|s| - n..] + s[|s| - 2 * n..|s| - n]
    {
      if |items| < 2 * n {
        return Err(NotEnoughElementsOnStack);
      }
      var len := |items|;
      items := items[..len - 2 * n] + items[len - n..] + items[len - 2 * n..len - n];
      return Ok(());
    }

    /** Takes out the item `n` places below the top. */
    method Remove(n: nat) returns (r: ScriptResult<Bytes>)
      modifies this
      ensures var s := old(items);
              if |s| < n + 1 then r == Err(NotEnoughElementsOnStack)
              else r == Ok(s[|s| - n - 1]) && items == s[..|s| - n - 1] + s[|s| - n..]
    {
      if |items| < n + 1 {
        return Err(NotEnoughElementsOnStack);
      }
      var at := |items| - n - 1;
      r := Ok(items[at]);
      items := items[..at] + items[at + 1..];
    }
  }

  function CountIdle(masks: seq<bool>): nat {
    if masks == [] then 0
    else CountIdle(masks[..|masks| - 1]) + if masks[|masks| - 1] then 0 else 1
  }

  lemma {:induction false} NoneIdle(masks: seq<bool>)
    ensures CountIdle(masks) == 0 <==> Executing(masks)
  {
    if masks != [] {
      var n := |masks| - 1;
      NoneIdle(masks[..n]);
      assert masks == masks[..n] + [masks[n]];
    }
  }

  /** The masks of the open conditionals with a running count of the idle ones. */
  class ExecStack {
    var stack: seq<bool>
    var numIdle: nat

    ghost predicate Valid()
      reads this
    {
      numIdle == CountIdle(stack)
    }

    constructor ()
      ensures Valid() && stack == []
    {
      stack, numIdle := [], 0;
    }

    method Push(executing: bool)
      requires Valid()
      modifies this
      ensures Valid() && stack == old(stack) + [executing]
    {
      stack := stack + [executing];
      assert stack[..|stack| - 1] == old(stack);
      numIdle := numIdle + if executing then 0 else 1;
    }

    method Pop() returns (r: Option<bool>)
      requires Valid()
      modifies this
      ensures Valid()
      ensures if old(stack) == [] then r == None && stack == []
              else r == Some(old(stack)[|old(stack)| - 1]) && stack == old(stack)[..|old(stack)| - 1]
    {
      if stack == [] {
        return None;
      }
      var executing := stack[|stack| - 1];
      stack := stack[..|stack| - 1];
      numIdle := numIdle - if executing then 0 else 1;
      return Some(executing);
    }

    /** The count tells whether every enclosing branch is being executed. */
    method IsExecuting() returns (b: bool)
      requires Valid()
      ensures b == Executing(stack)
    {
      NoneIdle(stack);
      return numIdle == 0;
    }
  }
}

/** The interpreter loop, opcode by opcode, against the meaning of scripts. */
module InterpreterLoop {
  import opened Outcomes
  import opened ScriptTypes
  import opened ScriptNumbers
  import opened Opcodes
  import opened ScriptCodec
  import opened ScriptContext
  import opened Multisig
  import opened Interpreter
  import opened InterpreterStacks

  /** `r` and the stack agree with what an operation should have produced. */
  predicate Produces(spec: ScriptResult<Items>, r: ScriptResult<()>, items: Items) {
    match spec
    case Ok(s) => r == Ok(()) && items == s
    case Err(e) => r == Err(e)
  }

  /** The closures of the unary opcodes; on four-byte operands none of them overflows 64 bits. */
  method Compute1(op: Ordinary, x: I64) returns (z: I64)
    requires IsUnary(op) && -TWO_31 < x < TWO_31
    ensures z == Unary(op, x) && z != -TWO_63
  {
    match op {
      case Op1Add => z := x + 1;
      case Op1Sub => z := x - 1;
      case OpNegate => z := -x;
      case OpAbs => if x < 0 { z := -x; } else { z := x; }
      case OpNot => if x == 0 { z := 1; } else { z := 0; }
      case Op0NotEqual => if x != 0 { z := 1; } else { z := 0; }
    }
  }

  /** The closures of the binary opcodes, with the deeper item on the left. */
  method Compute2(op: Ordinary, x: I64, y: I64) returns (z: I64)
    requires IsBinary(op) && -TWO_31 < x < TWO_31 && -TWO_31 < y < TWO_31
    ensures z == Binary(op, x, y) && z != -TWO_63
  {
    var test := false;
    match op {
      case OpAdd => return x + y;
      case OpSub => return x - y;
      case OpMin => return if y < x then y else x;
      case OpMax => return if y < x then x else y;
      case OpBoolAnd => test := x != 0 && y != 0;
      case OpBoolOr => test := x != 0 || y != 0;
      case OpNumEqual => test := x == y;
      case OpNumEqualVerify => test := x == y;
      case OpNumNotEqual => test := x != y;
      case OpLessThan => test := x < y;
      case OpGreaterThan => test := y < x;
      case OpLessThanOrEqual => test := x <= y;
      case OpGreaterThanOrEqual => test := y <= x;
    }
    return if test then 1 else 0;
  }

  method OpNum1(op: Ordinary, stack: Stack) returns (r: ScriptResult<()>)
    requires IsUnary(op)
    modifies stack
    ensures Produces(ApplyUnary(op, old(stack.items)), r, stack.items)
  {
    var x :- stack.PopInt();
    var z := Compute1(op, x);
    stack.PushInt(z);
    return Ok(());
  }

  method OpNum2(op: Ordinary, stack: Stack) returns (r: ScriptResult<()>)
    requires IsBinary(op)
    modifies stack
    ensures Produces(ApplyBinary(op, old(stack.items)), r, stack.items)
  {
    var y :- stack.PopInt();
    var x :- stack.PopInt();
    assert stack.items == old(stack.items)[..|old(stack.items)| - 2];
    var z := Compute2(op, x, y);
    stack.PushInt(z);
    return Ok(());
  }

  method OpWithinRange(stack: Stack) returns (r: ScriptResult<()>)
    modifies stack
    ensures Produces(ApplyWithin(old(stack.items)), r, stack.items)
  {
    var hi :- stack.PopInt();
    var lo :- stack.PopInt();
    ghost var s := old(stack.items);
    assert stack.items == s[..|s| - 2];
    var x :- stack.PopInt();
    assert stack.items == s[..|s| - 3];
    stack.PushInt(if lo <= x < hi then 1 else 0);
    return Ok(());
  }

  method OpHash(ctx: Context, op: Ordinary, stack: Stack) returns (r: ScriptResult<()>)
    requires IsHash(op)
    modifies stack
    ensures Produces(ApplyHash(ctx, op, old(stack.items)), r, stack.items)
  {
    var item :- stack.Pop();
    var digest: Bytes;
    match op {
      case OpRipemd160 => digest := ctx.ripemd160(item);
      case OpSha1 => digest := ctx.sha1(item);
      case OpSha256 => digest := ctx.sha256(item);
      case OpHash160 => digest := ctx.ripemd160(ctx.sha256(item));
      case OpHash256 => digest := ctx.sha256(ctx.sha256(item));
    }
    stack.Push(digest);
    return Ok(());
  }

  /** The opcodes that copy or drop whole slices. */
  method ExecuteSlices(op: Ordinary, stack: Stack) returns (r: ScriptResult<()>)
    requires op.OpDrop? || op.Op2Drop? || op.OpDup? || op.Op2Dup? || op.Op3Dup? || op.OpOver? || op.Op2Over?
    modifies stack
    ensures Produces(ApplyShuffle(ShuffleOf(op).value, old(stack.items)), r, stack.items)
  {
    match op {
      case OpDrop => r := stack.Drop(1);
      case Op2Drop => r := stack.Drop(2);
      case OpDup => r := stack.Dup(0, 1);
      case Op2Dup => r := stack.Dup(0, 2);
      case Op3Dup => r := stack.Dup(0, 3);
      case OpOver => r := stack.Dup(1, 2);
      case Op2Over => r := stack.Dup(2, 4);
    }
  }

  method ExecuteDoubleMoves(op: Ordinary, stack: Stack) returns (r: ScriptResult<()>)
    requires op.Op2Swap? || op.Op2Rot?
    modifies stack
    ensures Produces(ApplyShuffle(ShuffleOf(op).value, old(stack.items)), r, stack.items)
  {
    if op.Op2Swap? {
      r := stack.Swap(2);
    } else {
      var top :- stack.TopSlice(0, 6);
      var toPut := [top[2], top[3], top[4], top[5], top[0], top[1]];
      stack.items := stack.items[..|stack.items| - 6] + toPut;
      r := Ok(());
    }
  }

  method Nip(stack: Stack) returns (r: ScriptResult<()>)
    modifies stack
    ensures Produces(ApplyShuffle(ShuffleOf(OpNip).value, old(stack.items)), r, stack.items)
  {
    ghost var s := stack.items;
    var x :- stack.Pop();
    var _ :- stack.Pop();
    stack.Push(x);
    assert Select(s[|s| - 2..], [1]) == [s[|s| - 1]];
    r := Ok(());
  }

  method Rot(stack: Stack) returns (r: ScriptResult<()>)
    modifies stack
    ensures Produces(ApplyShuffle(ShuffleOf(OpRot).value, old(stack.items)), r, stack.items)
  {
    ghost var s := stack.items;
    var x :- stack.Remove(2);
    stack.Push(x);
    ghost var n := |s|;
    assert Select(s[n - 3..], [1, 2, 0]) == [s[n - 2], s[n - 1], s[n - 3]];
    r := Ok(());
  }

  method Tuck(stack: Stack) returns (r: ScriptResult<()>)
    modifies stack
    ensures Produces(ApplyShuffle(ShuffleOf(OpTuck).value, old(stack.items)), r, stack.items)
  {
    ghost var s := stack.items;
    var x :- stack.Top(0);
    var _ :- stack.Swap(1);
    stack.Push(x);
    ghost var n := |s|;
    assert Select(s[n - 2..], [1, 0, 1]) == [s[n - 1], s[n - 2], s[n - 1]];
    r := Ok(());
  }

  /** The opcodes that move single items around. */
  method ExecuteMoves(op: Ordinary, stack: Stack) returns (r: ScriptResult<()>)
    requires op.OpSwap? || op.OpNip? || op.OpRot? || op.OpTuck?
    modifies stack
    ensures Produces(ApplyShuffle(ShuffleOf(op).value, old(stack.items)), r, stack.items)
  {
    match op {
      case OpSwap => r := stack.Swap(1);
      case OpNip => r := Nip(stack);
      case OpRot => r := Rot(stack);
      case OpTuck => r := Tuck(stack);
    }
  }

  method ExecuteIndexed(op: Ordinary, stack: Stack) returns (r: ScriptResult<()>)
    requires op.OpPick? || op.OpRoll?
    modifies stack
    ensures Produces(if op.OpPick? then ApplyPick(old(stack.items)) else ApplyRoll(old(stack.items)), r, stack.items)
  {
    var i :- stack.PopInt();
    if i < 0 {
      return Err(InvalidOperand);
    }
    var x: Bytes;
    if op.OpPick? {
      x :- stack.Top(i);
    } else {
      x :- stack.Remove(i);
    }
    stack.Push(x);
    return Ok(());
  }

  method ExecuteQuery(op: Ordinary, stack: Stack) returns (r: ScriptResult<()>)
    requires op.OpIfDup? || op.OpDepth? || op.OpSize?
    modifies stack
    ensures Produces(ApplyQuery(op, old(stack.items)), r, stack.items)
  {
    match op {
      case OpIfDup =>
        var item :- stack.Top(0);
        if ReadScriptbool(item) {
          stack.Push(item);
        }
      case OpDepth =>
        if |stack.items| >= I32_MAX {
          return Err(NumericOverflow);
        }
        stack.PushInt(|stack.items|);
      case OpSize =>
        var item :- stack.Top(0);
        if |item| >= I32_MAX {
          return Err(NumericOverflow);
        }
        stack.PushInt(|item|);
    }
    return Ok(());
  }

  method ExecuteEqual(stack: Stack) returns (r: ScriptResult<()>)
    modifies stack
    ensures Produces(ApplyEqual(old(stack.items)), r, stack.items)
  {
    var y :- stack.Pop();
    var x :- stack.Pop();
    stack.PushBool(x == y);
    return Ok(());
  }

  /** The opcodes that only rearrange the stack. */
  method ExecuteShuffle(op: Ordinary, stack: Stack) returns (r: ScriptResult<()>)
    requires ShuffleOf(op).Some?
    modifies stack
    ensures Produces(ApplyShuffle(ShuffleOf(op).value, old(stack.items)), r, stack.items)
  {
    if op.OpVerify? {
      r := Ok(());
      assert stack.items == stack.items[..|stack.items|] + [];
    } else if op.OpDrop? || op.Op2Drop? || op.OpDup? || op.Op2Dup? || op.Op3Dup? || op.OpOver? || op.Op2Over? {
      r := ExecuteSlices(op, stack);
    } else if op.Op2Swap? || op.Op2Rot? {
      r := ExecuteDoubleMoves(op, stack);
    } else {
      r := ExecuteMoves(op, stack);
    }
  }

  method ExecuteCore(ctx: Context, op: Ordinary, stack: Stack) returns (r: ScriptResult<()>)
    modifies stack
    ensures Produces(ApplyCore(ctx, op, old(stack.items)), r, stack.items)
  {
    if ShuffleOf(op).Some? {
      r := ExecuteShuffle(op, stack);
    } else if op.OpPick? || op.OpRoll? {
      r := ExecuteIndexed(op, stack);
    } else if op.OpIfDup? || op.OpDepth? || op.OpSize? {
      r := ExecuteQuery(op, stack);
    } else if op.OpEqual? || op.OpEqualVerify? {
      r := ExecuteEqual(stack);
    } else if IsUnary(op) {
      r := OpNum1(op, stack);
    } else if IsBinary(op) {
      r := OpNum2(op, stack);
    } else if op.OpWithin? {
      r := OpWithinRange(stack);
    } else {
      r := OpHash(ctx, op, stack);
    }
  }

  /** The verification that ends every `*VERIFY` opcode. */
  method PopVerified(stack: Stack) returns (r: ScriptResult<()>)
    modifies stack
    ensures Produces(VerifyTop(old(stack.items)), r, stack.items)
  {
    var ok :- stack.PopBool();
    if !ok {
      return Err(VerifyFail);
    }
    return Ok(());
  }

  /** `execute_opcode`. */
  method ExecuteOpcode(ctx: Context, op: Ordinary, stack: Stack) returns (r: ScriptResult<()>)
    modifies stack
    ensures Produces(Apply(ctx, op, old(stack.items)), r, stack.items)
  {
    var _ :- ExecuteCore(ctx, op, stack);
    if OrdinaryIsVerify(op) {
      r := PopVerified(stack);
    } else {
      r := Ok(());
    }
  }

  /** Reads the operands of a multi-signature check without dropping them. */
  method ReadFrame(ctx: Context, stack: Stack) returns (r: ScriptResult<(seq<Bytes>, seq<Bytes>, nat)>)
    modifies stack
    ensures match FrameOf(ctx, old(stack.items))
            case Err(e) => r == Err(e)
            case Ok(f) => r == Ok((f.keys, f.sigs, |f.sigs| + |f.keys| + 1))
                          && |stack.items| == |f.rest| + |f.sigs| + |f.keys| + 1
                          && stack.items[..|f.rest|] == f.rest
  {
    var nkey :- stack.PopInt();
    if nkey < 0 || nkey > ctx.maxPubkeys {
      return Err(PubkeyCount);
    }
    var keys :- stack.TopSlice(0, nkey);
    var sigCount :- stack.Top(nkey);
    ReadScriptintRange(sigCount);
    var nsig :- ReadScriptint(sigCount);
    if nsig < 0 || nsig > nkey {
      return Err(SigCount);
    }
    var sigs :- stack.TopSlice(nkey + 1, nsig + nkey + 1);
    ghost var s := old(stack.items);
    assert keys == s[|s| - 1 - nkey..|s| - 1];
    assert sigs == s[|s| - 2 - nkey - nsig..|s| - 2 - nkey];
    return Ok((keys, sigs, nsig + nkey + 1));
  }

  method ExecuteCheckMultisig(j: Judge, stack: Stack) returns (r: ScriptResult<()>)
    modifies stack
    ensures Produces(ApplyCheckMultisig(j, old(stack.items)), r, stack.items)
  {
    var frame :- ReadFrame(j.ctx, stack);
    var (keys, sigs, used) := frame;
    var result := CheckMultisig(j, sigs, keys);
    var ok :- result;
    var dropped := stack.Drop(used);
    assert dropped.Ok?;
    var dummy :- stack.Pop();
    if dummy != [] {
      return Err(NullDummy);
    }
    stack.PushBool(ok);
    return Ok(());
  }

  /** The signature opcodes: a plain check is a one-of-one multi-signature check. */
  method ExecuteSignature(j: Judge, op: SignatureOp, stack: Stack) returns (r: ScriptResult<()>)
    modifies stack
    ensures Produces(ApplySignature(j, op, old(stack.items)), r, stack.items)
  {
    if op.OpCheckSig? || op.OpCheckSigVerify? {
      var pubkey :- stack.Pop();
      var sig :- stack.Pop();
      var result := CheckMultisig(j, [sig], [pubkey]);
      var ok :- result;
      stack.PushBool(ok);
    } else {
      var _ :- ExecuteCheckMultisig(j, stack);
    }
    if SignatureIsVerify(op) {
      r := PopVerified(stack);
    } else {
      r := Ok(());
    }
  }

  /** The condition of OP_IF or OP_NOTIF, popped off the stack. */
  method PopCondition(ctx: Context, notIf: bool, stack: Stack) returns (r: ScriptResult<bool>)
    modifies stack
    ensures forall m: Machine :: m.stack == old(stack.items) ==> r == Condition(ctx, notIf, m)
    ensures r.Ok? ==> old(stack.items) != [] && stack.items == old(stack.items)[..|old(stack.items)| - 1]
  {
    var item :- stack.Pop();
    var cond: bool;
    if !ctx.enforceMinimalIf {
      cond := ReadScriptbool(item);
    } else if item == [] {
      cond := false;
    } else if item == [1] {
      cond := true;
    } else {
      return Err(InvalidOperand);
    }
    return Ok(cond != notIf);
  }

  /** One opcode that is being executed and is neither a push from the script nor control flow. */
  method ExecutePlain(ctx: Context, c: Byte, rest: Bytes, stack: Stack, alt: Stack, subscript: Bytes, codesep: nat,
                      ghost count: nat)
    returns (r: ScriptResult<()>)
    requires stack != alt && c > OP_PUSHDATA4 && !Classify(c).Control?
    modifies stack, alt
    ensures match Act(ctx, Located(Op(c), rest), Machine(old(stack.items), old(alt.items), subscript, codesep, count))
            case Err(e) => r == Err(e)
            case Ok(m) => r == Ok(()) && m == Machine(stack.items, alt.items, subscript, codesep, count)
  {
    match Classify(c) {
      case IllegalClass =>
        return Err(IllegalOp);
      case ReturnOp =>
        return Err(VerifyFail);
      case PushNum(x) =>
        stack.PushInt(x);
      case AltStack(op) =>
        if op.OpToAltStack? {
          var x :- stack.Pop();
          alt.Push(x);
        } else {
          var x :- alt.Pop();
          stack.Push(x);
        }
      case Signature(op) =>
        var _ :- ExecuteSignature(Judge(ctx, subscript, codesep), op, stack);
      case TimeLockClass(op) =>
        var item :- stack.Top(0);
        var time :- ReadScriptintSize(item, 5);
        var ok := if op.OpCltv? then ctx.checkLockTime(time) else ctx.checkSequence(time);
        if !ok {
          return Err(TimeLock);
        }
      case OrdinaryClass(op) =>
        var _ :- ExecuteOpcode(ctx, op, stack);
      case NoOp =>
    }
    return Ok(());
  }

  /** OP_IF, OP_NOTIF, OP_ELSE and OP_ENDIF before the size check that follows them. */
  method ExecuteNesting(ctx: Context, c: Byte, stack: Stack, exec: ExecStack, ghost m: Machine)
    returns (r: ScriptResult<()>)
    requires c in {OP_IF, OP_NOTIF, OP_ELSE, OP_ENDIF}
    requires exec.Valid() && m.stack == stack.items
    modifies stack, exec
    ensures exec.Valid()
    ensures r.Err? ==> forall rest :: Step(ctx, Located(Op(c), rest), State(m, old(exec.stack))) == Err(r.error)
    ensures r.Ok? ==> forall rest :: Step(ctx, Located(Op(c), rest), State(m, old(exec.stack))) ==
                        var s := Settle(ctx, m.(stack := stack.items));
                        if s.Err? then Err(s.error) else Ok(State(s.value, exec.stack))
  {
    var executing := exec.IsExecuting();
    if c == OP_IF || c == OP_NOTIF {
      var cond := false;
      if executing {
        cond :- PopCondition(ctx, c == OP_NOTIF, stack);
      }
      exec.Push(cond);
    } else {
      var top := exec.Pop();
      if top.None? {
        return Err(UnbalancedIfElse);
      }
      if c == OP_ELSE {
        exec.Push(!top.value);
      }
    }
    return Ok(());
  }

  /** The effect of one instruction other than the nesting opcodes, executed or skipped. */
  method ExecuteFlat(ctx: Context, instr: Instruction, rest: Bytes, executing: bool, stack: Stack, alt: Stack,
                     subscript: Bytes, codesep: nat, count: nat)
    returns (r: ScriptResult<(Bytes, nat)>)
    requires stack != alt && !IsNesting(instr) && (instr.Op? ==> instr.code > OP_PUSHDATA4)
    modifies stack, alt
    ensures var l, m := Located(instr, rest), Machine(old(stack.items), old(alt.items), subscript, codesep, count);
            match if executing then Act(ctx, l, m) else ActSkipped(ctx, l, m)
            case Err(e) => r == Err(e)
            case Ok(m') => r.Ok? && m' == Machine(stack.items, alt.items, r.value.0, r.value.1, count)
  {
    match instr {
      case PushBytes(data) =>
        if |data| > ctx.maxElementSize {
          return Err(PushSize);
        }
        if executing {
          stack.Push(data);
        }
      case Op(c) =>
        if c == OP_CODESEPARATOR {
          return Ok((rest, count));
        } else if executing {
          var _ :- ExecutePlain(ctx, c, rest, stack, alt, subscript, codesep, count);
        } else if Classify(c).IllegalClass? {
          return Err(IllegalOp);
        }
    }
    return Ok((subscript, codesep));
  }

  /** What the loop keeps besides its stacks. */
  datatype Position = Position(subscript: Bytes, codesep: nat, count: nat)

  ghost function StateOf(stack: Stack, alt: Stack, exec: ExecStack, p: Position): State
    reads stack, alt, exec
  {
    State(Machine(stack.items, alt.items, p.subscript, p.codesep, p.count), exec.stack)
  }

  /** One turn of the loop: an instruction, then the size check. */
  method ExecuteInstruction(ctx: Context, instr: Instruction, rest: Bytes, stack: Stack, alt: Stack, exec: ExecStack,
                            p: Position)
    returns (r: ScriptResult<Position>)
    requires stack != alt && exec.Valid() && (instr.Op? ==> instr.code > OP_PUSHDATA4)
    modifies stack, alt, exec
    ensures exec.Valid()
    ensures match Step(ctx, Located(instr, rest), old(StateOf(stack, alt, exec, p)))
            case Err(e) => r == Err(e)
            case Ok(st) => r.Ok? && st == StateOf(stack, alt, exec, r.value)
  {
    var p' := p;
    if IsNesting(instr) {
      var _ :- ExecuteNesting(ctx, instr.code, stack, exec, old(StateOf(stack, alt, exec, p)).m);
    } else {
      var executing := exec.IsExecuting();
      var at :- ExecuteFlat(ctx, instr, rest, executing, stack, alt, p.subscript, p.codesep, p.count);
      p' := p.(subscript := at.0, codesep := at.1);
    }
    if |stack.items| + |alt.items| > ctx.maxStackElements {
      return Err(StackSize);
    }
    return Ok(p'.(count := if p.count < U32_MAX then p.count + 1 else p.count));
  }

  /** Parsing consumes input, and pushes never surface as opcodes. */
  lemma NextShrinks(data: Bytes, minimal: bool)
    ensures match ParseNext(data, minimal)
            case Item(instr, rest) => |rest| < |data| && (instr.Op? ==> instr.code > OP_PUSHDATA4)
            case _ => true
  {}

  /**
   `run_script`. The loop is total: every input ends in a stack or an error, no index, unsigned
   subtraction or 64-bit operation in it can fail, and pushes never reach the opcode branch.
   */
  method RunScript(ctx: Context, script: Bytes, items: Items) returns (r: ScriptResult<Items>)
    ensures r == Run(ctx, script, items)
  {
    if |script| > ctx.maxScriptSize {
      return Err(ScriptSize);
    }
    var iter := new Instructions(script, ctx.enforceMinimalPush);
    var stack := new Stack(items);
    var alt := new Stack([]);
    var exec := new ExecStack();
    var p := Position(script, U32_MAX, 0);
    while true
      invariant stack != alt && exec.Valid() && iter.enforceMinimal == ctx.enforceMinimalPush
      invariant fresh(iter) && fresh(stack) && fresh(alt) && fresh(exec)
      invariant Resume(ctx, iter.data, StateOf(stack, alt, exec, p)) == Run(ctx, script, items)
      decreases |iter.data|
    {
      ResumeUnfolds(ctx, iter.data, StateOf(stack, alt, exec, p));
      NextShrinks(iter.data, ctx.enforceMinimalPush);
      var next := iter.Next();
      if next == None {
        break;
      }
      var instr :- next.value;
      p :- ExecuteInstruction(ctx, instr, iter.data, stack, alt, exec, p);
    }
    if exec.stack != [] {
      return Err(UnbalancedIfElse);
    }
    return Ok(stack.items);
  }
}
