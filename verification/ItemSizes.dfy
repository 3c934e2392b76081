/** Every item a script can produce is bounded in size. */
module ItemSizes {
  import opened Outcomes
  import opened ScriptTypes
  import opened ScriptNumbers
  import opened Opcodes
  import opened ScriptCodec
  import opened ScriptContext
  import opened Multisig
  import opened Interpreter

  predicate Within(s: Items, bound: nat) {
    forall k :: 0 <= k < |s| ==> |s[k]| <= bound
  }

  predicate StateWithin(st: State, bound: nat) {
    Within(st.m.stack, bound) && Within(st.m.alt, bound)
  }

  /** A limit that admits every pushed constant, digest and number. */
  predicate Admits(ctx: Context, bound: nat) {
    ctx.maxElementSize <= bound && 32 <= bound
  }

  /** Numbers up to twice the range of operands take at most five bytes. */
  lemma SmallNumberSize(n: int)
    requires -2 * TWO_31 <= n <= 2 * TWO_31
    ensures |ScriptInt(n)| <= 5
  {
    Exp256Values();
    ScriptIntLength(n, 5);
  }

  lemma TopIntRange(s: Items)
    ensures TopInt(s).Ok? ==> -TWO_31 < TopInt(s).value < TWO_31
  {
    if s != [] {
      ReadScriptintRange(s[|s| - 1]);
    }
  }

  lemma ArithmeticWithin(op: Ordinary, s: Items, bound: nat)
    requires Within(s, bound) && 32 <= bound
    ensures IsUnary(op) && ApplyUnary(op, s).Ok? ==> Within(ApplyUnary(op, s).value, bound)
    ensures IsBinary(op) && ApplyBinary(op, s).Ok? ==> Within(ApplyBinary(op, s).value, bound)
  {
    TopIntRange(s);
    if IsUnary(op) && TopInt(s).Ok? {
      SmallNumberSize(Unary(op, TopInt(s).value));
    }
    if IsBinary(op) && ApplyBinary(op, s).Ok? {
      TopIntRange(s[..|s| - 1]);
      SmallNumberSize(Binary(op, TopInt(s[..|s| - 1]).value, TopInt(s).value));
    }
  }

  lemma ShuffleWithin(sh: Shuffle, s: Items, bound: nat)
    requires forall k :: 0 <= k < |sh.leaves| ==> sh.leaves[k] < sh.arity
    requires Within(s, bound)
    ensures ApplyShuffle(sh, s).Ok? ==> Within(ApplyShuffle(sh, s).value, bound)
  {}

  lemma IndexedWithin(s: Items, bound: nat)
    requires Within(s, bound)
    ensures ApplyPick(s).Ok? ==> Within(ApplyPick(s).value, bound)
    ensures ApplyRoll(s).Ok? ==> Within(ApplyRoll(s).value, bound)
  {}

  lemma QueryWithin(op: Ordinary, s: Items, bound: nat)
    requires op.OpIfDup? || op.OpDepth? || op.OpSize?
    requires Within(s, bound) && 32 <= bound
    ensures ApplyQuery(op, s).Ok? ==> Within(ApplyQuery(op, s).value, bound)
  {
    if op.OpDepth? && |s| < I32_MAX {
      SmallNumberSize(|s|);
    } else if op.OpSize? && s != [] && |s[|s| - 1]| < I32_MAX {
      SmallNumberSize(|s[|s| - 1]|);
    }
  }

  lemma TestsWithin(s: Items, bound: nat)
    requires Within(s, bound) && 32 <= bound
    ensures ApplyEqual(s).Ok? ==> Within(ApplyEqual(s).value, bound)
    ensures ApplyWithin(s).Ok? ==> Within(ApplyWithin(s).value, bound)
  {
    SmallNumberSize(0);
    SmallNumberSize(1);
  }

  lemma CoreWithin(ctx: Context, op: Ordinary, s: Items, bound: nat)
    requires Within(s, bound) && 32 <= bound
    ensures ApplyCore(ctx, op, s).Ok? ==> Within(ApplyCore(ctx, op, s).value, bound)
  {
    if ShuffleOf(op).Some? {
      ShuffleWithin(ShuffleOf(op).value, s, bound);
    } else if IsUnary(op) || IsBinary(op) {
      ArithmeticWithin(op, s, bound);
    } else if IsHash(op) {
    } else if op.OpPick? || op.OpRoll? {
      IndexedWithin(s, bound);
    } else if op.OpEqual? || op.OpEqualVerify? || op.OpWithin? {
      TestsWithin(s, bound);
    } else {
      QueryWithin(op, s, bound);
    }
  }

  lemma ApplyKeepsBound(ctx: Context, op: Ordinary, s: Items, bound: nat)
    requires Within(s, bound) && 32 <= bound
    ensures Apply(ctx, op, s).Ok? ==> Within(Apply(ctx, op, s).value, bound)
  {
    CoreWithin(ctx, op, s, bound);
  }

  lemma SignatureWithin(j: Judge, op: SignatureOp, s: Items, bound: nat)
    requires Within(s, bound) && 32 <= bound
    ensures ApplySignature(j, op, s).Ok? ==> Within(ApplySignature(j, op, s).value, bound)
  {
    SmallNumberSize(0);
    SmallNumberSize(1);
  }

  lemma ActWithin(ctx: Context, l: Located, m: Machine, bound: nat)
    requires Within(m.stack, bound) && Within(m.alt, bound) && Admits(ctx, bound)
    ensures match Act(ctx, l, m) case Err(_) => true case Ok(m') => Within(m'.stack, bound) && Within(m'.alt, bound)
  {
    if l.instr.Op? {
      match Classify(l.instr.code)
      case PushNum(x) => SmallNumberSize(x);
      case Signature(op) => SignatureWithin(Judge(ctx, m.subscript, m.codesep), op, m.stack, bound);
      case OrdinaryClass(op) => ApplyKeepsBound(ctx, op, m.stack, bound);
      case _ =>
    }
  }

  lemma StepWithin(ctx: Context, l: Located, st: State, bound: nat)
    requires StateWithin(st, bound) && Admits(ctx, bound)
    ensures Step(ctx, l, st).Ok? ==> StateWithin(Step(ctx, l, st).value, bound)
    ensures Step(ctx, l, st).Ok? ==>
              |Step(ctx, l, st).value.m.stack| + |Step(ctx, l, st).value.m.alt| <= ctx.maxStackElements
  {
    if !IsNesting(l.instr) {
      ActWithin(ctx, l, st.m, bound);
    }
  }

  /** The bound holds on both stacks after every prefix of every run. */
  lemma {:induction false} RunWithin(ctx: Context, body: seq<Located>, st: State, k: nat, bound: nat)
    requires StateWithin(st, bound) && Admits(ctx, bound) && k <= |body|
    ensures RunBody(ctx, body[..k], st).Ok? ==> StateWithin(RunBody(ctx, body[..k], st).value, bound)
  {
    if k > 0 {
      assert body[..k] == body[..k - 1] + [body[k - 1]];
      RunBodyAppend(ctx, body[..k - 1], [body[k - 1]], st);
      RunWithin(ctx, body, st, k - 1, bound);
      var r := RunBody(ctx, body[..k - 1], st);
      if r.Ok? {
        StepWithin(ctx, body[k - 1], r.value, bound);
        RunBodyCons(ctx, body[k - 1], [], r.value);
        assert [body[k - 1]] + [] == [body[k - 1]];
      }
    }
  }

  /** In particular the result of a script keeps the bound its input obeys. */
  lemma ResultWithin(ctx: Context, script: Bytes, items: Items, bound: nat)
    requires Within(items, bound) && Admits(ctx, bound)
    ensures Run(ctx, script, items).Ok? ==> Within(Run(ctx, script, items).value, bound)
  {
    var body := Decode(script, ctx.enforceMinimalPush).body;
    RunWithin(ctx, body, Start(script, items), |body|, bound);
    assert body[..|body|] == body;
  }
}
