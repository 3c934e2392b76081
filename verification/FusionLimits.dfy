/** When exactly fusing an opcode with OP_VERIFY keeps the meaning of a script. */
module FusionLimits {
  import opened Outcomes
  import opened ScriptTypes
  import opened ScriptNumbers
  import opened Opcodes
  import opened ScriptCodec
  import opened ScriptContext
  import opened ScriptBuilder
  import opened Multisig
  import opened Interpreter
  import opened OpcodeMeaning
  import opened PushOnlyScripts
  import opened PushVerifyMeaning

  // ----- the last steps of either form

  /** What the plain opcode leaves on the stack. */
  function PlainEffect(ctx: Context, c: Byte, m: Machine): ScriptResult<Items> {
    var m' :- Act(ctx, Located(Op(c), [OP_VERIFY]), m);
    Ok(m'.stack)
  }

  function WithinLimit(ctx: Context, alt: nat, r: ScriptResult<Items>): ScriptResult<Items> {
    if r.Ok? && |r.value| + alt > ctx.maxStackElements then Err(StackSize) else r
  }

  /** The fused opcode verifies the effect before the size is checked. */
  function VerifyFirst(ctx: Context, alt: nat, r: ScriptResult<Items>): ScriptResult<Items> {
    WithinLimit(ctx, alt, if r.Err? then r else VerifyTop(r.value))
  }

  /** Between the plain opcode and OP_VERIFY the size is checked. */
  function VerifyAfter(ctx: Context, alt: nat, r: ScriptResult<Items>): ScriptResult<Items> {
    var s :- WithinLimit(ctx, alt, r);
    VerifyTop(s)
  }

  function FusedResult(ctx: Context, c: Byte, m: Machine): ScriptResult<Items> {
    VerifyFirst(ctx, |m.alt|, PlainEffect(ctx, c, m))
  }

  function PlainResult(ctx: Context, c: Byte, m: Machine): ScriptResult<Items> {
    VerifyAfter(ctx, |m.alt|, PlainEffect(ctx, c, m))
  }

  predicate Ends(run: ScriptResult<State>, r: ScriptResult<Items>, masks: seq<bool>) {
    if r.Err? then run == Err(r.error)
    else run.Ok? && run.value.m.stack == r.value && run.value.masks == masks
  }

  lemma FusedLast(ctx: Context, c: Byte, st: State)
    requires Fused(c).Some? && Executing(st.masks)
    ensures Ends(RunBody(ctx, [Located(Op(Fused(c).value), [])], st), FusedResult(ctx, c, st.m), st.masks)
  {
    var l := Located(Op(Fused(c).value), []);
    assert [l] == [l] + [];
    RunBodyCons(ctx, l, [], st);
    FusedAct(ctx, c, [OP_VERIFY], [], st.m);
  }

  lemma VerifyLast(ctx: Context, st: State)
    requires Executing(st.masks) && Depth(st.m) <= ctx.maxStackElements
    ensures Ends(RunBody(ctx, [Located(Op(OP_VERIFY), [])], st), VerifyTop(st.m.stack), st.masks)
  {
    var l := Located(Op(OP_VERIFY), []);
    assert [l] == [l] + [];
    RunBodyCons(ctx, l, [], st);
    VerifyAct(ctx, [], st.m);
  }

  lemma PlainLast(ctx: Context, c: Byte, st: State)
    requires Fused(c).Some? && Executing(st.masks)
    ensures Ends(RunBody(ctx, [Located(Op(c), [OP_VERIFY]), Located(Op(OP_VERIFY), [])], st),
                 PlainResult(ctx, c, st.m), st.masks)
  {
    var l1, l2 := Located(Op(c), [OP_VERIFY]), Located(Op(OP_VERIFY), []);
    assert [l1, l2] == [l1] + [l2];
    RunBodyCons(ctx, l1, [l2], st);
    FusedAct(ctx, c, [OP_VERIFY], [], st.m);
    if Step(ctx, l1, st).Ok? {
      VerifyLast(ctx, Step(ctx, l1, st).value);
    }
  }

  // ----- what the two subscripts can make of it

  predicate IsVerdict(item: Bytes) {
    item == BoolItem(true) || item == BoolItem(false)
  }

  /** A verdict on top of what the opcode did not touch, or an error that nothing after it gives. */
  predicate VerdictOrError(r: ScriptResult<Items>) {
    match r
    case Ok(s) => s != [] && IsVerdict(s[|s| - 1])
    case Err(e) => e != VerifyFail && e != StackSize && e != UnbalancedIfElse
  }

  /** Two effects that differ at most in the verdict, or in whether there is one. */
  predicate Comparable(r1: ScriptResult<Items>, r2: ScriptResult<Items>) {
    && VerdictOrError(r1) && VerdictOrError(r2)
    && (r1.Ok? && r2.Ok? ==> |r1.value| == |r2.value| && r1.value[..|r1.value| - 1] == r2.value[..|r2.value| - 1])
  }

  lemma GreedyError(j: Judge, sigs: seq<Bytes>, keys: seq<Bytes>)
    ensures Greedy(j, sigs, keys).Err? ==> Greedy(j, sigs, keys) == Err(PubkeyFormat)
  {
    GreedyFailsExactly(j, sigs, keys);
  }

  lemma CheckSigComparable(j1: Judge, j2: Judge, s: Items)
    ensures Comparable(ApplyCheckSig(j1, s), ApplyCheckSig(j2, s))
  {
    if |s| >= 2 {
      GreedyError(j1, [s[|s| - 2]], [s[|s| - 1]]);
      GreedyError(j2, [s[|s| - 2]], [s[|s| - 1]]);
    }
  }

  lemma CheckMultisigComparable(j1: Judge, j2: Judge, s: Items)
    requires j1.ctx == j2.ctx
    ensures Comparable(ApplyCheckMultisig(j1, s), ApplyCheckMultisig(j2, s))
  {
    var f := FrameOf(j1.ctx, s);
    if f.Ok? {
      GreedyError(j1, f.value.sigs, f.value.keys);
      GreedyError(j2, f.value.sigs, f.value.keys);
    }
  }

  lemma EqualEffect(ctx: Context, m: Machine)
    ensures PlainEffect(ctx, OP_EQUAL, m) == ApplyEqual(m.stack)
  {
    EqualClasses();
    EqualCore(ctx, OpEqual, m.stack);
  }

  lemma NumEqualEffect(ctx: Context, m: Machine)
    ensures PlainEffect(ctx, OP_NUMEQUAL, m) == ApplyBinary(OpNumEqual, m.stack)
  {
    NumEqualClasses();
    BinaryCore(ctx, OpNumEqual, m.stack);
  }

  lemma CheckSigEffect(ctx: Context, m: Machine)
    ensures PlainEffect(ctx, OP_CHECKSIG, m) == ApplyCheckSig(Judge(ctx, m.subscript, m.codesep), m.stack)
  {
    CheckSigClasses();
  }

  lemma CheckMultisigEffect(ctx: Context, m: Machine)
    ensures PlainEffect(ctx, OP_CHECKMULTISIG, m) == ApplyCheckMultisig(Judge(ctx, m.subscript, m.codesep), m.stack)
  {
    CheckMultisigClasses();
  }

  lemma NumEqualVerdict(s: Items)
    ensures VerdictOrError(ApplyBinary(OpNumEqual, s))
  {}

  lemma EffectsComparable(ctx: Context, c: Byte, m1: Machine, m2: Machine)
    requires Fused(c).Some? && m1.stack == m2.stack
    ensures Comparable(PlainEffect(ctx, c, m1), PlainEffect(ctx, c, m2))
  {
    var j1, j2 := Judge(ctx, m1.subscript, m1.codesep), Judge(ctx, m2.subscript, m2.codesep);
    if c == OP_EQUAL {
      EqualEffect(ctx, m1);
      EqualEffect(ctx, m2);
    } else if c == OP_NUMEQUAL {
      NumEqualEffect(ctx, m1);
      NumEqualEffect(ctx, m2);
      NumEqualVerdict(m1.stack);
    } else if c == OP_CHECKSIG {
      CheckSigEffect(ctx, m1);
      CheckSigEffect(ctx, m2);
      CheckSigComparable(j1, j2, m1.stack);
    } else {
      CheckMultisigEffect(ctx, m1);
      CheckMultisigEffect(ctx, m2);
      CheckMultisigComparable(j1, j2, m1.stack);
    }
  }

  predicate Accepted(s: Items) {
    s != [] && s[|s| - 1] == BoolItem(true)
  }

  lemma VerdictsTell(s: Items)
    requires s != [] && IsVerdict(s[|s| - 1])
    ensures VerifyTop(s) == if Accepted(s) then Ok(s[..|s| - 1]) else Err(VerifyFail)
  {
    ScriptIntMeansItsNumber(1);
    ReadScriptboolIsNonzero(ScriptInt(1));
    ReadScriptboolIsNonzero(ScriptInt(0));
  }

  // ----- the exact condition

  /**
   The effects are the same and leave the stacks within their limit, or else so far beyond it that
   both forms fail for that.
   */
  predicate Agree(ctx: Context, alt: nat, r1: ScriptResult<Items>, r2: ScriptResult<Items>) {
    if r1.Err? || r2.Err? || |r1.value| + alt <= ctx.maxStackElements then r1 == r2
    else |r1.value| + alt > ctx.maxStackElements + 1 && Accepted(r1.value)
  }

  /** The opcode has effects on the two machines that agree. */
  predicate EffectsAgree(ctx: Context, c: Byte, m1: Machine, m2: Machine) {
    Agree(ctx, |m1.alt|, PlainEffect(ctx, c, m1), PlainEffect(ctx, c, m2))
  }

  /** That is when the two forms end alike. */
  lemma OrdersOfVerifying(ctx: Context, alt: nat, r1: ScriptResult<Items>, r2: ScriptResult<Items>)
    requires Comparable(r1, r2)
    ensures VerifyFirst(ctx, alt, r1) == VerifyAfter(ctx, alt, r2) <==> Agree(ctx, alt, r1, r2)
    ensures VerifyFirst(ctx, alt, r1) != Err(UnbalancedIfElse) && VerifyAfter(ctx, alt, r2) != Err(UnbalancedIfElse)
    ensures VerifyFirst(ctx, alt, r1).Ok? && VerifyAfter(ctx, alt, r2).Ok? ==> Agree(ctx, alt, r1, r2)
  {
    if r1.Ok? {
      VerdictsTell(r1.value);
    }
    if r2.Ok? {
      VerdictsTell(r2.value);
    }
    if r1.Ok? && r2.Ok? {
      var n := |r1.value| - 1;
      assert r1.value == r1.value[..n] + [r1.value[n]] && r2.value == r2.value[..n] + [r2.value[n]];
    }
  }

  lemma FinishTells(run1: ScriptResult<State>, run2: ScriptResult<State>, r1: ScriptResult<Items>,
                    r2: ScriptResult<Items>, masks: seq<bool>)
    requires Ends(run1, r1, masks) && Ends(run2, r2, masks)
    requires r1 != Err(UnbalancedIfElse) && r2 != Err(UnbalancedIfElse) && (r1.Ok? && r2.Ok? ==> r1 == r2)
    ensures Finished(run1) == Finished(run2) <==> r1 == r2
  {}

  function Finished(run: ScriptResult<State>): ScriptResult<Items> {
    var st :- run;
    Finish(None, st)
  }

  /** Where the script has come to before its last opcode, if it is to end in `end`. */
  function Before(ctx: Context, front: Bytes, end: Bytes, items: Items): ScriptResult<State> {
    RunBody(ctx, Relocate(Decode(front, ctx.enforceMinimalPush).body, end), Start(front + end, items))
  }

  /**
   Both forms are too long, or neither is and the last opcode is not reached, or is skipped, or has
   effects that agree on the machines that differ in the subscript alone.
   */
  predicate FusionKeeps(ctx: Context, front: Bytes, c: Byte, items: Items)
    requires Fused(c).Some?
  {
    var x, y := Before(ctx, front, [Fused(c).value], items), Before(ctx, front, [c, OP_VERIFY], items);
    || ctx.maxScriptSize <= |front|
    || (&& |front| + 2 <= ctx.maxScriptSize
        && (|| Decode(front, ctx.enforceMinimalPush).failure.Some? || x.Err? || y.Err? || !Executing(x.value.masks)
            || EffectsAgree(ctx, c, x.value.m, y.value.m)))
  }

  /** The last steps, from where the front has come to. */
  lemma LastStepsExactly(ctx: Context, c: Byte, x: State, y: State)
    requires Fused(c).Some? && Similar(x.m, y.m) && x.masks == y.masks
    ensures Finished(RunBody(ctx, [Located(Op(Fused(c).value), [])], x)) ==
            Finished(RunBody(ctx, [Located(Op(c), [OP_VERIFY]), Located(Op(OP_VERIFY), [])], y))
            <==> !Executing(x.masks) || EffectsAgree(ctx, c, x.m, y.m)
  {
    if Executing(x.masks) {
      FusedLast(ctx, c, x);
      PlainLast(ctx, c, y);
      EffectsComparable(ctx, c, x.m, y.m);
      OrdersOfVerifying(ctx, |x.m.alt|, PlainEffect(ctx, c, x.m), PlainEffect(ctx, c, y.m));
      FinishTells(RunBody(ctx, [Located(Op(Fused(c).value), [])], x),
                  RunBody(ctx, [Located(Op(c), [OP_VERIFY]), Located(Op(OP_VERIFY), [])], y),
                  FusedResult(ctx, c, x.m), PlainResult(ctx, c, y.m), x.masks);
    } else {
      SkippedAlike(ctx, c, x, y);
    }
  }

  lemma SkippedAlike(ctx: Context, c: Byte, x: State, y: State)
    requires Fused(c).Some? && Similar(x.m, y.m) && x.masks == y.masks && !Executing(x.masks)
    ensures EndAlike(RunBody(ctx, [Located(Op(Fused(c).value), [])], x),
                     RunBody(ctx, [Located(Op(c), [OP_VERIFY]), Located(Op(OP_VERIFY), [])], y))
  {
    var l, l1, l2 := Located(Op(Fused(c).value), []), Located(Op(c), [OP_VERIFY]), Located(Op(OP_VERIFY), []);
    assert [l] == [l] + [] && [l1, l2] == [l1] + [l2] && [l2] == [l2] + [];
    RunBodyCons(ctx, l, [], x);
    RunBodyCons(ctx, l1, [l2], y);
    if Step(ctx, l1, y).Ok? {
      RunBodyCons(ctx, l2, [], Step(ctx, l1, y).value);
    }
    FusedStepSkipped(ctx, c, x, y);
  }

  /** A run in two parts: the front, and what follows unless the front fails or does not parse. */
  lemma RunInParts(ctx: Context, front: Bytes, end: Bytes, back: Code, items: Items)
    requires Whole(front) && |front + end| <= ctx.maxScriptSize
    requires Decode(end, ctx.enforceMinimalPush) == back && back.failure.None?
    ensures var x, code := Before(ctx, front, end, items), Decode(front, ctx.enforceMinimalPush);
            Run(ctx, front + end, items) ==
            if x.Err? then Err(x.error)
            else if code.failure.Some? then Err(code.failure.value)
            else Finished(RunBody(ctx, back.body, x.value))
  {
    RunIsOutcome(ctx, front, end, back, items);
    RunBodyAppend(ctx, Relocate(Decode(front, ctx.enforceMinimalPush).body, end), back.body, Start(front + end, items));
  }

  /** Where the front has no signature check that sees its bytes, fusing keeps the meaning in exactly these cases. */
  lemma FusedRunsExactly(ctx: Context, front: Bytes, c: Byte, items: Items)
    requires Whole(front) && Fused(c).Some? && AllBlind(ctx, Decode(front, ctx.enforceMinimalPush).body)
    ensures Run(ctx, front + [Fused(c).value], items) == Run(ctx, front + [c, OP_VERIFY], items)
            <==> FusionKeeps(ctx, front, c, items)
  {
    var t1, t2 := [Fused(c).value], [c, OP_VERIFY];
    ScriptSizeExactly(ctx, front + t1, items);
    ScriptSizeExactly(ctx, front + t2, items);
    if |front| + 2 <= ctx.maxScriptSize {
      DecodeEnds(c, ctx.enforceMinimalPush);
      RunInParts(ctx, front, t1, Code([Located(Op(Fused(c).value), [])], None), items);
      RunInParts(ctx, front, t2, Code([Located(Op(c), [OP_VERIFY]), Located(Op(OP_VERIFY), [])], None), items);
      RunSimilar(ctx, Decode(front, ctx.enforceMinimalPush).body, t1, t2,
                 Start(front + t1, items), Start(front + t2, items));
      var x, y := Before(ctx, front, t1, items), Before(ctx, front, t2, items);
      if x.Ok? {
        LastStepsExactly(ctx, c, x.value, y.value);
      }
    }
  }

  /**
   The fused script and the script with a plain OP_VERIFY appended give the same result, errors
   included, on every stack within one of the limit, if no signature check sees the script's bytes.
   */
  lemma FusedRunsAlike(ctx: Context, front: Bytes, c: Byte, items: Items)
    requires Whole(front) && Fused(c).Some?
    requires AllBlind(ctx, Decode(front + [c], ctx.enforceMinimalPush).body)
    requires |front| + 2 <= ctx.maxScriptSize
    requires front == [] ==> |items| <= ctx.maxStackElements + 1
    ensures Run(ctx, front + [Fused(c).value], items) == Run(ctx, front + [c, OP_VERIFY], items)
  {
    var t1, t2 := [Fused(c).value], [c, OP_VERIFY];
    var code := Decode(front, ctx.enforceMinimalPush);
    BlindParts(ctx, front, c);
    FusedRunsExactly(ctx, front, c, items);
    var a := Start(front + t1, items);
    RunSimilar(ctx, code.body, t1, t2, a, Start(front + t2, items));
    var x, y := Before(ctx, front, t1, items), Before(ctx, front, t2, items);
    if code.failure.None? && x.Ok? {
      RelocateKeeps(code.body, t1);
      if code.body == [] {
        EmptyCode(front, ctx.enforceMinimalPush);
      } else {
        RunDepth(ctx, Relocate(code.body, t1), a);
      }
      BlindEffectsAgree(ctx, c, x.value.m, y.value.m);
    }
  }

  lemma BlindEffectsAgree(ctx: Context, c: Byte, m1: Machine, m2: Machine)
    requires Fused(c).Some? && Blind(ctx, Op(c)) && Similar(m1, m2) && Depth(m1) <= ctx.maxStackElements + 1
    ensures EffectsAgree(ctx, c, m1, m2)
  {
    ActSimilar(ctx, Op(c), [OP_VERIFY], [OP_VERIFY], m1, m2);
    FusedAct(ctx, c, [OP_VERIFY], [], m1);
  }

  /** Of these cases, a script that is the opcode alone. */
  lemma FusedAloneExactly(ctx: Context, c: Byte, items: Items)
    requires Fused(c).Some?
    ensures Run(ctx, [Fused(c).value], items) == Run(ctx, [c, OP_VERIFY], items) <==>
            || ctx.maxScriptSize == 0
            || (&& 2 <= ctx.maxScriptSize
                && EffectsAgree(ctx, c, Start([Fused(c).value], items).m, Start([c, OP_VERIFY], items).m))
  {
    var t1, t2 := [Fused(c).value], [c, OP_VERIFY];
    assert [] + t1 == t1 && [] + t2 == t2;
    assert Decode([], ctx.enforceMinimalPush) == Code([], None);
    FusedRunsExactly(ctx, [], c, items);
  }

  // ----- the two ways to go wrong

  lemma AloneResults(ctx: Context, c: Byte, items: Items)
    requires Fused(c).Some? && 2 <= ctx.maxScriptSize
    ensures Run(ctx, [Fused(c).value], items) == FusedResult(ctx, c, Start([Fused(c).value], items).m)
    ensures Run(ctx, [c, OP_VERIFY], items) == PlainResult(ctx, c, Start([c, OP_VERIFY], items).m)
  {
    DecodeEnds(c, ctx.enforceMinimalPush);
    FusedLast(ctx, c, Start([Fused(c).value], items));
    PlainLast(ctx, c, Start([c, OP_VERIFY], items));
  }

  /** Two equal items on top of a stack two over the limit: only the fused script accepts. */
  lemma FusedDiffersBeyondLimit(ctx: Context, items: Items)
    requires |items| == ctx.maxStackElements + 2 && 2 <= ctx.maxScriptSize
    requires items[|items| - 1] == items[|items| - 2]
    ensures Run(ctx, [OP_EQUALVERIFY], items) == Ok(items[..|items| - 2])
    ensures Run(ctx, [OP_EQUAL, OP_VERIFY], items) == Err(StackSize)
  {
    AloneResults(ctx, OP_EQUAL, items);
    EqualEffect(ctx, Start([OP_EQUALVERIFY], items).m);
    EqualEffect(ctx, Start([OP_EQUAL, OP_VERIFY], items).m);
    VerdictsTell(items[..|items| - 2] + [BoolItem(true)]);
  }

  /** A signature good for the fused script and not for the plain one: only the fused script accepts. */
  lemma FusedDiffersBySubscript(ctx: Context, s: Items)
    requires 2 <= |s| <= ctx.maxStackElements + 1 && 2 <= ctx.maxScriptSize
    requires Judge(ctx, [OP_CHECKSIGVERIFY], U32_MAX).Accepts(s[|s| - 1], s[|s| - 2])
    requires !Judge(ctx, [OP_CHECKSIG, OP_VERIFY], U32_MAX).Accepts(s[|s| - 1], s[|s| - 2])
    ensures Run(ctx, [OP_CHECKSIGVERIFY], s) == Ok(s[..|s| - 2])
    ensures Run(ctx, [OP_CHECKSIG, OP_VERIFY], s) == Err(VerifyFail)
  {
    AloneResults(ctx, OP_CHECKSIG, s);
    CheckSigEffect(ctx, Start([OP_CHECKSIGVERIFY], s).m);
    CheckSigEffect(ctx, Start([OP_CHECKSIG, OP_VERIFY], s).m);
    var sig, key := s[|s| - 2], s[|s| - 1];
    assert Greedy(Judge(ctx, [OP_CHECKSIGVERIFY], U32_MAX), [sig], [key]) == Ok(true);
    assert Greedy(Judge(ctx, [OP_CHECKSIG, OP_VERIFY], U32_MAX), [sig], [key]) == Ok(false);
    VerdictsTell(s[..|s| - 2] + [BoolItem(true)]);
    VerdictsTell(s[..|s| - 2] + [BoolItem(false)]);
  }

  // ----- the builder

  /** `push_verify` on any valid builder means the same as appending OP_VERIFY, in exactly these cases. */
  method PushVerifyKeepsMeaning(ctx: Context, builder: Builder, items: Items)
    requires builder.Valid()
    requires builder.last.Some? && Fused(builder.last.value).Some? ==>
               AllBlind(ctx, Decode(builder.bytes[..|builder.bytes| - 1], ctx.enforceMinimalPush).body)
    modifies builder
    ensures builder.Valid()
    ensures Run(ctx, builder.bytes, items) == Run(ctx, old(builder.bytes) + [OP_VERIFY], items) <==>
            (old(builder.last).Some? && Fused(old(builder.last).value).Some? ==>
               var n := |old(builder.bytes)| - 1;
               FusionKeeps(ctx, old(builder.bytes)[..n], old(builder.last).value, items))
  {
    ghost var was := builder.bytes;
    ghost var last := builder.last;
    builder.PushVerify();
    if last.Some? && Fused(last.value).Some? {
      var front := was[..|was| - 1];
      assert was + [OP_VERIFY] == front + [last.value, OP_VERIFY] && was == front + [last.value];
      FusedRunsExactly(ctx, front, last.value, items);
    }
  }
}
