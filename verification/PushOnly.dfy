/** Scripts limited to data pushes, and the check of a witness against a lock. */
module PushOnlyScripts {
  import opened Outcomes
  import opened ScriptTypes
  import opened ScriptNumbers
  import opened Opcodes
  import opened ScriptCodec
  import opened ScriptContext
  import opened ScriptBuilder
  import opened Multisig
  import opened Interpreter
  import opened InterpreterStacks
  import opened InterpreterLoop

  /** Pushing the items of the instructions one by one, checking limits as they go. */
  function PushAll(ctx: Context, list: seq<Instruction>, items: Items): ScriptResult<Items> {
    if list == [] then Ok(items)
    else if list[0].PushBytes? && |list[0].data| > ctx.maxElementSize then Err(PushSize)
    else if PushedItem(list[0]).None? then Err(PushOnly)
    else if |items| + 1 > ctx.maxStackElements then Err(StackSize)
    else PushAll(ctx, list[1..], items + [PushedItem(list[0]).value])
  }

  function ResumePushdata(ctx: Context, data: Bytes, items: Items): ScriptResult<Items> {
    var code := Decode(data, ctx.enforceMinimalPush);
    var items' :- PushAll(ctx, InstructionsOf(code.body), items);
    if code.failure.Some? then Err(code.failure.value) else Ok(items')
  }

  /** `run_pushdata` as a function. */
  function Pushdata(ctx: Context, script: Bytes): ScriptResult<Items> {
    if |script| > ctx.maxScriptSize then Err(ScriptSize) else ResumePushdata(ctx, script, [])
  }

  lemma ResumePushdataUnfolds(ctx: Context, data: Bytes, items: Items)
    ensures ResumePushdata(ctx, data, items) ==
            match ParseNext(data, ctx.enforceMinimalPush)
            case Finished => Ok(items)
            case Failed(e) => Err(e)
            case Item(instr, rest) =>
              if instr.PushBytes? && |instr.data| > ctx.maxElementSize then Err(PushSize)
              else if PushedItem(instr).None? then Err(PushOnly)
              else if |items| + 1 > ctx.maxStackElements then Err(StackSize)
              else ResumePushdata(ctx, rest, items + [PushedItem(instr).value])
  {
    var next := ParseNext(data, ctx.enforceMinimalPush);
    if next.Item? {
      DecodeCons(data, ctx.enforceMinimalPush, next.instr, next.rest);
      var body := Decode(data, ctx.enforceMinimalPush).body;
      assert body[0].instr == next.instr && body[1..] == Decode(next.rest, ctx.enforceMinimalPush).body;
      var list := InstructionsOf(body);
      assert list[0] == next.instr && list[1..] == InstructionsOf(body[1..]);
    }
  }

  /** `run_pushdata`. */
  method RunPushdata(ctx: Context, script: Bytes) returns (r: ScriptResult<Items>)
    ensures r == Pushdata(ctx, script)
  {
    if |script| > ctx.maxScriptSize {
      return Err(ScriptSize);
    }
    var stack := new Stack([]);
    var iter := new Instructions(script, ctx.enforceMinimalPush);
    while true
      invariant fresh(stack) && fresh(iter) && iter.enforceMinimal == ctx.enforceMinimalPush
      invariant ResumePushdata(ctx, iter.data, stack.items) == Pushdata(ctx, script)
      decreases |iter.data|
    {
      ResumePushdataUnfolds(ctx, iter.data, stack.items);
      NextShrinks(iter.data, ctx.enforceMinimalPush);
      var next := iter.Next();
      if next == None {
        break;
      }
      var instr :- next.value;
      match instr {
        case PushBytes(data) =>
          if |data| > ctx.maxElementSize {
            return Err(PushSize);
          }
          stack.Push(data);
        case Op(c) =>
          if !Classify(c).PushNum? {
            return Err(PushOnly);
          }
          stack.PushInt(Classify(c).num);
      }
      if |stack.items| > ctx.maxStackElements {
        return Err(StackSize);
      }
    }
    return Ok(stack.items);
  }

  /** The final check of a verification: one item, and it is true. */
  function VerifyStack(items: Items): ScriptResult<()> {
    if |items| != 1 then Err(StackNotClean)
    else if ReadScriptbool(items[0]) then Ok(())
    else Err(VerifyFail)
  }

  /** `verify_witness_lock`: succeeds exactly when the lock leaves one item, a nonzero number. */
  method VerifyWitnessLock(ctx: Context, unlock: Bytes, lock: Bytes) returns (r: ScriptResult<()>)
    ensures r.Ok? <==>
            && Pushdata(ctx, unlock).Ok?
            && var end := Run(ctx, lock, Pushdata(ctx, unlock).value);
               end.Ok? && |end.value| == 1 && SignedMagnitude(end.value[0]) != 0
    ensures Pushdata(ctx, unlock).Err? ==> r == Err(Pushdata(ctx, unlock).error)
    ensures Pushdata(ctx, unlock).Ok? ==>
              match Run(ctx, lock, Pushdata(ctx, unlock).value)
              case Err(e) => r == Err(e)
              case Ok(end) => r.Err? ==> r.error == if |end| == 1 then VerifyFail else StackNotClean
  {
    var pushed := RunPushdata(ctx, unlock);
    var stack :- pushed;
    var ran := RunScript(ctx, lock, stack);
    var end :- ran;
    if |end| == 1 {
      ReadScriptboolIsNonzero(end[0]);
    }
    return VerifyStack(end);
  }

  // ----- push-only runs and full runs

  lemma StepOfPush(ctx: Context, l: Located, st: State)
    requires PushedItem(l.instr).Some? && st.masks == [] && st.m.alt == []
    ensures Step(ctx, l, st) ==
            if l.instr.PushBytes? && |l.instr.data| > ctx.maxElementSize then Err(PushSize)
            else if |st.m.stack| + 1 > ctx.maxStackElements then Err(StackSize)
            else Ok(State(st.m.(stack := st.m.stack + [PushedItem(l.instr).value],
                                count := if st.m.count < U32_MAX then st.m.count + 1 else st.m.count), []))
  {}

  lemma {:induction false} PushAllIsRun(ctx: Context, body: seq<Located>, st: State)
    requires st.masks == [] && st.m.alt == []
    requires PushAll(ctx, InstructionsOf(body), st.m.stack) != Err(PushOnly)
    ensures match PushAll(ctx, InstructionsOf(body), st.m.stack)
            case Err(e) => RunBody(ctx, body, st) == Err(e)
            case Ok(items) =>
              var r := RunBody(ctx, body, st);
              r.Ok? && r.value.m.stack == items && r.value.masks == []
  {
    if body != [] {
      var list := InstructionsOf(body);
      assert list[0] == body[0].instr && list[1..] == InstructionsOf(body[1..]);
      if PushedItem(list[0]).Some? {
        StepOfPush(ctx, body[0], st);
        if Step(ctx, body[0], st).Ok? {
          PushAllIsRun(ctx, body[1..], Step(ctx, body[0], st).value);
        }
      }
    }
  }

  // ----- errors that no instruction gives

  /** Neither the complaint of the push-only runner nor the size of the script can come from running. */
  predicate Inner<T>(r: ScriptResult<T>) {
    r.Err? ==> r.error != PushOnly && r.error != ScriptSize
  }

  lemma TopIntInner(s: Items)
    ensures Inner(TopInt(s))
  {}

  lemma NumbersInner(op: Ordinary, s: Items)
    ensures IsUnary(op) ==> Inner(ApplyUnary(op, s))
    ensures IsBinary(op) ==> Inner(ApplyBinary(op, s))
  {
    TopIntInner(s);
    if s != [] {
      TopIntInner(s[..|s| - 1]);
    }
  }

  lemma IndexedInner(s: Items)
    ensures Inner(ApplyWithin(s)) && Inner(ApplyPick(s)) && Inner(ApplyRoll(s))
  {
    TopIntInner(s);
    if |s| >= 2 {
      TopIntInner(s[..|s| - 1]);
      TopIntInner(s[..|s| - 2]);
    }
  }

  lemma OthersInner(ctx: Context, op: Ordinary, s: Items)
    ensures IsHash(op) ==> Inner(ApplyHash(ctx, op, s))
    ensures op.OpIfDup? || op.OpDepth? || op.OpSize? ==> Inner(ApplyQuery(op, s))
    ensures Inner(ApplyEqual(s))
  {}

  lemma ShuffleInner(sh: Shuffle, s: Items)
    requires forall k :: 0 <= k < |sh.leaves| ==> sh.leaves[k] < sh.arity
    ensures Inner(ApplyShuffle(sh, s))
  {}

  lemma CoreInner(ctx: Context, op: Ordinary, s: Items)
    ensures Inner(ApplyCore(ctx, op, s))
  {
    if ShuffleOf(op).Some? {
      ShuffleInner(ShuffleOf(op).value, s);
    } else {
      NumbersInner(op, s);
      IndexedInner(s);
      OthersInner(ctx, op, s);
    }
  }

  lemma ApplyInner(ctx: Context, op: Ordinary, s: Items)
    ensures Inner(Apply(ctx, op, s))
  {
    CoreInner(ctx, op, s);
  }

  lemma SignatureInner(j: Judge, op: SignatureOp, s: Items)
    ensures Inner(ApplySignature(j, op, s))
  {
    if |s| >= 2 {
      GreedyFailsExactly(j, [s[|s| - 2]], [s[|s| - 1]]);
    }
    var f := FrameOf(j.ctx, s);
    if f.Ok? {
      GreedyFailsExactly(j, f.value.sigs, f.value.keys);
    }
  }

  lemma StepInner(ctx: Context, l: Located, st: State)
    ensures Inner(Step(ctx, l, st))
  {
    if l.instr.Op? {
      match Classify(l.instr.code)
      case Signature(op) => SignatureInner(Judge(ctx, st.m.subscript, st.m.codesep), op, st.m.stack);
      case OrdinaryClass(op) => ApplyInner(ctx, op, st.m.stack);
      case _ =>
    }
  }

  lemma {:induction false} RunInner(ctx: Context, body: seq<Located>, st: State)
    ensures Inner(RunBody(ctx, body, st))
  {
    if body != [] {
      StepInner(ctx, body[0], st);
      if Step(ctx, body[0], st).Ok? {
        RunInner(ctx, body[1..], Step(ctx, body[0], st).value);
      }
    }
  }

  lemma {:induction false} DecodeInner(data: Bytes, minimal: bool)
    ensures Decode(data, minimal).failure !in {Some(PushOnly), Some(ScriptSize)}
    decreases |data|
  {
    var next := ParseNext(data, minimal);
    if next.Item? {
      DecodeInner(next.rest, minimal);
    }
  }

  /** A script is refused for its size exactly when it is too long. */
  lemma ScriptSizeExactly(ctx: Context, script: Bytes, items: Items)
    ensures Run(ctx, script, items) == Err(ScriptSize) <==> |script| > ctx.maxScriptSize
    ensures Run(ctx, script, items) != Err(PushOnly)
  {
    RunInner(ctx, Decode(script, ctx.enforceMinimalPush).body, Start(script, items));
    DecodeInner(script, ctx.enforceMinimalPush);
  }

  /** From the empty stack the two runners agree exactly when the script only pushes data. */
  lemma PushdataAgreesWithRun(ctx: Context, script: Bytes)
    ensures Pushdata(ctx, script) == Run(ctx, script, []) <==> Pushdata(ctx, script) != Err(PushOnly)
  {
    ScriptSizeExactly(ctx, script, []);
    if |script| <= ctx.maxScriptSize {
      var code := Decode(script, ctx.enforceMinimalPush);
      if PushAll(ctx, InstructionsOf(code.body), []) != Err(PushOnly) {
        PushAllIsRun(ctx, code.body, Start(script, []));
      }
    }
  }

  // ----- building and running pushes

  function SliceInstructions(data: seq<Bytes>): seq<Instruction> {
    if data == [] then [] else [SliceInstruction(data[0])] + SliceInstructions(data[1..])
  }

  lemma {:induction false} PushScriptEncodes(data: seq<Bytes>)
    requires forall d :: d in data ==> |d| < 0x1_0000_0000
    ensures forall i :: i in SliceInstructions(data) ==> Encodable(i) && MinimalInstruction(i)
    ensures EncodeAll(SliceInstructions(data)) == PushScript(data)
  {
    if data != [] {
      SliceInstructionPushes(data[0]);
      PushScriptEncodes(data[1..]);
      var list := SliceInstructions(data);
      assert list[0] == SliceInstruction(data[0]) && list[1..] == SliceInstructions(data[1..]);
    }
  }

  lemma {:induction false} PushAllYields(ctx: Context, data: seq<Bytes>, items: Items)
    requires forall d :: d in data ==> |d| < 0x1_0000_0000 && |d| <= ctx.maxElementSize
    requires |items| + |data| <= ctx.maxStackElements
    ensures PushAll(ctx, SliceInstructions(data), items) == Ok(items + data)
  {
    if data == [] {
      assert items + data == items;
    } else {
      SliceInstructionPushes(data[0]);
      var list := SliceInstructions(data);
      assert list[0] == SliceInstruction(data[0]) && list[1..] == SliceInstructions(data[1..]);
      PushAllYields(ctx, data[1..], items + [data[0]]);
      assert items + data == items + [data[0]] + data[1..];
    }
  }

  /** A script built from minimal pushes runs to exactly the list of its items, under either runner. */
  lemma BuiltPushesRun(ctx: Context, data: seq<Bytes>)
    requires forall d :: d in data ==> |d| < 0x1_0000_0000 && |d| <= ctx.maxElementSize
    requires |data| <= ctx.maxStackElements && |PushScript(data)| <= ctx.maxScriptSize
    ensures Pushdata(ctx, PushScript(data)) == Ok(data)
    ensures Run(ctx, PushScript(data), []) == Ok(data)
  {
    PushScriptEncodes(data);
    ParseOfEncode(SliceInstructions(data), ctx.enforceMinimalPush);
    PushAllYields(ctx, data, []);
    assert [] + data == data;
    PushdataAgreesWithRun(ctx, PushScript(data));
  }
}
